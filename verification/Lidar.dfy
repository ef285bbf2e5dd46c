/** The LiDAR bitmap decoder: a shifting bit loop against the eight-way loop, both over exact coordinates. */
module Lidar {
  import opened Common

  const MAX_BITMAP_BYTES: nat := 1024 * 1024
  const MAX_POINTS: nat := 1_000_000
  const BYTES_PER_ROW: nat := 16
  const BYTES_PER_SLICE: nat := 2048

  datatype Origin = Origin(x: real, y: real, z: real)

  datatype Voxel = Voxel(x: nat, y: nat, z: nat)

  // ---------------------------------------------------------------- bits, most significant first

  /** 1 << (7 - j) */
  function Mask(j: nat): bv8
    requires j < 8
    decreases 7 - j
  {
    if j == 7 then 1 else Mask(j + 1) << 1
  }

  lemma MaskForms()
    ensures Mask(0) == 0x80 && Mask(1) == 0x40 && Mask(2) == 0x20 && Mask(3) == 0x10
    ensures Mask(4) == 0x08 && Mask(5) == 0x04 && Mask(6) == 0x02 && Mask(7) == 0x01
  {
    assert Mask(7) == 0x01;
    assert Mask(6) == 0x02;
    assert Mask(5) == 0x04;
    assert Mask(4) == 0x08;
    assert Mask(3) == 0x10;
    assert Mask(2) == 0x20;
    assert Mask(1) == 0x40;
  }

  predicate BitOf(b: bv8, j: nat)
    requires j < 8
  {
    b & Mask(j) != 0
  }

  /** All bits of the bitmap in wire order. */
  function Flags(buffer: Bytes): seq<bool> {
    seq(8 * |buffer|, k requires 0 <= k < 8 * |buffer| => BitOf(buffer[k / 8], k % 8))
  }

  /** Byte i of the bits is b. */
  ghost predicate ByteAt(flags: seq<bool>, i: nat, b: bv8) {
    8 * i + 8 <= |flags| && forall j :: 0 <= j < 8 ==> flags[8 * i + j] == BitOf(b, j)
  }

  lemma FlagsByte(buffer: Bytes, i: nat)
    requires i < |buffer|
    ensures ByteAt(Flags(buffer), i, buffer[i])
  {
    forall j | 0 <= j < 8
      ensures Flags(buffer)[8 * i + j] == BitOf(buffer[i], j)
    {
      var k := 8 * i + j;
      assert k / 8 == i && k % 8 == j;
    }
  }

  /** The positions of the set bits among the first n, in order. */
  function SetBits(flags: seq<bool>, n: nat): seq<nat>
    requires n <= |flags|
  {
    if n == 0 then [] else SetBits(flags, n - 1) + if flags[n - 1] then [n - 1] else []
  }

  /** The positions of all set bits of the bitmap. */
  function Positions(buffer: Bytes): seq<nat> { SetBits(Flags(buffer), 8 * |buffer|) }

  /** The byte after j left shifts. */
  function Shifted(b: bv8, j: nat): bv8 {
    if j == 0 then b else Shifted(b, j - 1) << 1
  }

  lemma ShiftedForms(b: bv8)
    ensures Shifted(b, 1) == b << 1 && Shifted(b, 2) == b << 2 && Shifted(b, 3) == b << 3 && Shifted(b, 4) == b << 4
    ensures Shifted(b, 5) == b << 5 && Shifted(b, 6) == b << 6 && Shifted(b, 7) == b << 7 && Shifted(b, 8) == 0
  {
    assert Shifted(b, 1) == b << 1;
    assert Shifted(b, 2) == b << 2;
    assert Shifted(b, 3) == b << 3;
    assert Shifted(b, 4) == b << 4;
    assert Shifted(b, 5) == b << 5;
    assert Shifted(b, 6) == b << 6;
    assert Shifted(b, 7) == b << 7;
    assert Shifted(b, 8) == 0;
  }

  /** After j shifts the top bit is bit j. */
  lemma ShiftedBits(b: bv8, j: nat)
    requires j < 8
    ensures Shifted(b, j) & 0x80 != 0 <==> BitOf(b, j)
  {
    ShiftedForms(b);
    MaskForms();
    assert BitOf(b, 0) <==> b & 0x80 != 0;
    assert BitOf(b, 1) <==> (b << 1) & 0x80 != 0;
    assert BitOf(b, 2) <==> (b << 2) & 0x80 != 0;
    assert BitOf(b, 3) <==> (b << 3) & 0x80 != 0;
    assert BitOf(b, 4) <==> (b << 4) & 0x80 != 0;
    assert BitOf(b, 5) <==> (b << 5) & 0x80 != 0;
    assert BitOf(b, 6) <==> (b << 6) & 0x80 != 0;
    assert BitOf(b, 7) <==> (b << 7) & 0x80 != 0;
  }

  // ---------------------------------------------------------------- voxels and points

  /** The voxel of bit k, by its linear index in 128 x 128 slices. */
  function VoxelOf(k: nat): Voxel { Voxel(k % 128, k / 128 % 128, k / 16384) }

  function LinearIndex(v: Voxel): nat { (v.z * 128 + v.y) * 128 + v.x }

  function Coordinate(index: nat, resolution: real, origin: real): real { index as real * resolution + origin }

  function Place(v: Voxel, origin: Origin, resolution: real): seq<real> {
    [Coordinate(v.x, resolution, origin.x), Coordinate(v.y, resolution, origin.y), Coordinate(v.z, resolution, origin.z)]
  }

  /** The coordinates of the given bits, three for each, in order. */
  function Points(bits: seq<nat>, origin: Origin, resolution: real): seq<real> {
    if bits == [] then [] else
      Points(bits[..|bits| - 1], origin, resolution) + Place(VoxelOf(bits[|bits| - 1]), origin, resolution)
  }

  lemma PointsPush(bits: seq<nat>, k: nat, origin: Origin, resolution: real)
    ensures Points(bits + [k], origin, resolution) == Points(bits, origin, resolution) + Place(VoxelOf(k), origin, resolution)
  {
    assert (bits + [k])[..|bits|] == bits;
  }

  lemma LinearIndexOfVoxel(k: nat)
    ensures LinearIndex(VoxelOf(k)) == k && VoxelOf(k).x < 128 && VoxelOf(k).y < 128
  {
    var q, r := k / 128, k % 128;
    var z, y := q / 128, q % 128;
    Split16384(k, z, 128 * y + r);
  }

  /** The wire layout's coordinates of bit j of byte i are those of linear index 8 i + j. */
  lemma WireVoxel(i: nat, j: nat)
    requires j < 8
    ensures VoxelOf(8 * i + j) == Wire(i, j)
  {
    var z, slice := i / 2048, i % 2048;
    var y, r := slice / 16, slice % 16;
    var k := 8 * i + j;
    Split128(k, z * 128 + y, r * 8 + j);
    Split128(z * 128 + y, z, y);
    Split16384(k, z, y * 128 + r * 8 + j);
  }

  lemma Split128(k: nat, q: nat, r: nat)
    requires k == 128 * q + r && r < 128
    ensures k / 128 == q && k % 128 == r
  {
  }

  lemma Split16384(k: nat, q: nat, r: nat)
    requires k == 16384 * q + r && r < 16384
    ensures k / 16384 == q
  {
  }

  // ---------------------------------------------------------------- the two loops

  predicate Within(flags: seq<bool>, i: nat, j: nat) { j <= 8 && 8 * i + j <= |flags| }

  /** The points of the bits before bit j of byte i. */
  ghost function Emitted(flags: seq<bool>, i: nat, j: nat, origin: Origin, resolution: real): seq<real>
    requires Within(flags, i, j)
  {
    Points(SetBits(flags, 8 * i + j), origin, resolution)
  }

  lemma EmittedByte(flags: seq<bool>, i: nat, origin: Origin, resolution: real)
    requires Within(flags, i, 8)
    ensures Within(flags, i + 1, 0)
    ensures Emitted(flags, i, 8, origin, resolution) == Emitted(flags, i + 1, 0, origin, resolution)
  {
    assert 8 * i + 8 == 8 * (i + 1) + 0;
  }

  /** The wire layout's coordinates of bit j of byte i. */
  function Wire(i: nat, j: nat): Voxel {
    Voxel(i % BYTES_PER_SLICE % BYTES_PER_ROW * 8 + j, i % BYTES_PER_SLICE / BYTES_PER_ROW, i / BYTES_PER_SLICE)
  }

  /** What bit j of byte i adds. */
  lemma EmitNext(flags: seq<bool>, i: nat, j: nat, origin: Origin, resolution: real)
    requires j < 8 && 8 * i + j < |flags|
    ensures Emitted(flags, i, j + 1, origin, resolution)
         == if flags[8 * i + j] then Emitted(flags, i, j, origin, resolution) + Place(Wire(i, j), origin, resolution)
            else Emitted(flags, i, j, origin, resolution)
  {
    WireVoxel(i, j);
    var k := 8 * i + j;
    assert 8 * i + (j + 1) == k + 1;
    PointsPush(SetBits(flags, k), k, origin, resolution);
    assert SetBits(flags, k) + [] == SetBits(flags, k);
  }

  lemma {:induction false} RestClear(flags: seq<bool>, i: nat, j: nat, b: bv8, origin: Origin, resolution: real)
    requires ByteAt(flags, i, b) && j <= 8 && Shifted(b, j) == 0
    ensures Emitted(flags, i, j, origin, resolution) == Emitted(flags, i, 8, origin, resolution)
    decreases 8 - j
  {
    if j == 8 {
    } else {
      ShiftedZero(b, j);
      EmitNext(flags, i, j, origin, resolution);
      RestClear(flags, i, j + 1, b, origin, resolution);
    }
  }

  lemma ShiftedZero(b: bv8, j: nat)
    requires j < 8 && Shifted(b, j) == 0
    ensures !BitOf(b, j) && Shifted(b, j + 1) == 0
  {
    ShiftedBits(b, j);
  }

  /** The eight-way loop over byte i. */
  method TestEach(b: bv8, i: nat, origin: Origin, resolution: real, before: seq<real>, ghost flags: seq<bool>)
    returns (points: seq<real>)
    requires ByteAt(flags, i, b) && before == Emitted(flags, i, 0, origin, resolution)
    ensures points == Emitted(flags, i, 8, origin, resolution)
  {
    var z := i / BYTES_PER_SLICE;
    var slice := i % BYTES_PER_SLICE;
    var y := slice / BYTES_PER_ROW;
    var xBase := slice % BYTES_PER_ROW * 8;
    points := before;
    for j := 0 to 8
      invariant points == Emitted(flags, i, j, origin, resolution)
    {
      EmitNext(flags, i, j, origin, resolution);
      assert Wire(i, j) == Voxel(xBase + j, y, z);
      if b & Mask(j) != 0 {
        assert BitOf(b, j);
        points := points + Place(Voxel(xBase + j, y, z), origin, resolution);
      } else {
        assert !BitOf(b, j);
      }
    }
  }

  /** The shifting loop over byte i: it stops as soon as no bit is left. */
  method ShiftOut(b: bv8, i: nat, origin: Origin, resolution: real, before: seq<real>, ghost flags: seq<bool>)
    returns (points: seq<real>)
    requires ByteAt(flags, i, b) && before == Emitted(flags, i, 0, origin, resolution)
    ensures points == Emitted(flags, i, 8, origin, resolution)
  {
    var z := i / BYTES_PER_SLICE;
    var slice := i % BYTES_PER_SLICE;
    var y := slice / BYTES_PER_ROW;
    var xBase := slice % BYTES_PER_ROW * 8;
    var bits, offset := b, 0;
    points := before;
    while bits != 0
      invariant offset <= 8 && bits == Shifted(b, offset)
      invariant points == Emitted(flags, i, offset, origin, resolution)
      decreases 8 - offset
    {
      ShiftStep(b, offset);
      EmitNext(flags, i, offset, origin, resolution);
      assert Wire(i, offset) == Voxel(xBase + offset, y, z);
      if bits & 0x80 != 0 {
        points := points + Place(Voxel(xBase + offset, y, z), origin, resolution);
      }
      bits := bits << 1;
      offset := offset + 1;
    }
    RestClear(flags, i, offset, b, origin, resolution);
  }

  /** A byte not yet shifted to zero has had fewer than eight shifts. */
  lemma ShiftStep(b: bv8, j: nat)
    requires j <= 8 && Shifted(b, j) != 0
    ensures j < 8 && Shifted(b, j + 1) == Shifted(b, j) << 1
    ensures Shifted(b, j) & 0x80 != 0 <==> BitOf(b, j)
  {
    ShiftedForms(b);
    ShiftedBits(b, j);
  }

  method TestAll(buffer: Bytes, origin: Origin, resolution: real, ghost flags: seq<bool>) returns (points: seq<real>)
    requires |flags| == 8 * |buffer| && forall i :: 0 <= i < |buffer| ==> ByteAt(flags, i, buffer[i])
    ensures points == Points(SetBits(flags, |flags|), origin, resolution)
  {
    points := [];
    for i := 0 to |buffer|
      invariant points == Emitted(flags, i, 0, origin, resolution)
    {
      EmittedByte(flags, i, origin, resolution);
      if buffer[i] == 0 {
        RestClear(flags, i, 0, buffer[i], origin, resolution);
        continue;
      }
      points := TestEach(buffer[i], i, origin, resolution, points, flags);
    }
  }

  /** `bits_to_points`, the simple form. */
  method BitsToPoints(buffer: Bytes, origin: Origin, resolution: real) returns (points: seq<real>)
    ensures points == Points(Positions(buffer), origin, resolution)
  {
    forall i | 0 <= i < |buffer| ensures ByteAt(Flags(buffer), i, buffer[i]) {
      FlagsByte(buffer, i);
    }
    points := TestAll(buffer, origin, resolution, Flags(buffer));
  }

  // ---------------------------------------------------------------- counting

  function One(b: bool): nat { if b then 1 else 0 }

  /** The set bits among the first j of a byte. */
  function OnesUpTo(b: bv8, j: nat): nat
    requires j <= 8
  {
    if j == 0 then 0 else OnesUpTo(b, j - 1) + One(BitOf(b, j - 1))
  }

  /** `count_ones` */
  function CountOnes(b: bv8): nat { OnesUpTo(b, 8) }

  function PopCount(buffer: Bytes): nat {
    if buffer == [] then 0 else PopCount(buffer[..|buffer| - 1]) + CountOnes(buffer[|buffer| - 1])
  }

  lemma {:induction false} SetBitsInByte(flags: seq<bool>, i: nat, b: bv8, j: nat)
    requires j <= 8 && ByteAt(flags, i, b)
    ensures |SetBits(flags, 8 * i + j)| == |SetBits(flags, 8 * i)| + OnesUpTo(b, j)
  {
    if j == 0 {
    } else {
      SetBitsInByte(flags, i, b, j - 1);
      assert flags[8 * i + (j - 1)] == BitOf(b, j - 1);
    }
  }

  lemma SetBitsOfByte(flags: seq<bool>, i: nat, b: bv8)
    requires ByteAt(flags, i, b)
    ensures |SetBits(flags, 8 * (i + 1))| == |SetBits(flags, 8 * i)| + CountOnes(b)
  {
    SetBitsInByte(flags, i, b, 8);
    assert 8 * i + 8 == 8 * (i + 1);
  }

  /** The population count is the number of positions. */
  lemma {:induction false} PopCountIsSetBits(buffer: Bytes, i: nat)
    requires i <= |buffer|
    ensures |SetBits(Flags(buffer), 8 * i)| == PopCount(buffer[..i])
  {
    if i == 0 {
    } else {
      PopCountIsSetBits(buffer, i - 1);
      assert buffer[..i][..i - 1] == buffer[..i - 1];
      FlagsByte(buffer, i - 1);
      SetBitsOfByte(Flags(buffer), i - 1, buffer[i - 1]);
    }
  }

  lemma {:induction false} PointsLength(bits: seq<nat>, origin: Origin, resolution: real)
    ensures |Points(bits, origin, resolution)| == 3 * |bits|
  {
    if bits == [] {
    } else {
      PointsLength(bits[..|bits| - 1], origin, resolution);
    }
  }

  /** Exactly the set positions are listed, in strictly increasing order, hence each once. */
  lemma {:induction false} SetBitsExactly(flags: seq<bool>, n: nat)
    requires n <= |flags|
    ensures Lists(flags, n, SetBits(flags, n)) && Increasing(SetBits(flags, n))
  {
    if n == 0 {
    } else {
      SetBitsExactly(flags, n - 1);
      ListsNext(flags, n - 1, SetBits(flags, n - 1));
    }
  }

  /** Exactly the positions below n that are set. */
  ghost predicate Lists(flags: seq<bool>, n: nat, bits: seq<nat>)
    requires n <= |flags|
  {
    && (forall k :: k in bits ==> 0 <= k < n && flags[k])
    && (forall k :: 0 <= k < n && flags[k] ==> k in bits)
  }

  ghost predicate Increasing(bits: seq<nat>) {
    forall a, b :: 0 <= a < b < |bits| ==> bits[a] < bits[b]
  }

  lemma ListsNext(flags: seq<bool>, n: nat, bits: seq<nat>)
    requires n < |flags| && Lists(flags, n, bits) && Increasing(bits)
    ensures flags[n] ==> Lists(flags, n + 1, bits + [n]) && Increasing(bits + [n])
    ensures !flags[n] ==> Lists(flags, n + 1, bits + [])
    ensures !flags[n] ==> Increasing(bits + [])
  {
    if flags[n] {
      forall a, b | 0 <= a < b < |bits + [n]|
        ensures (bits + [n])[a] < (bits + [n])[b]
      {
        assert bits[a] in bits;
      }
      forall k | 0 <= k < n + 1 && flags[k]
        ensures k in bits + [n]
      {
        assert k < n ==> k in bits;
      }
    } else {
      assert bits + [] == bits;
    }
  }

  method CountPoints(buffer: Bytes) returns (count: nat)
    ensures count == PopCount(buffer)
  {
    count := 0;
    for i := 0 to |buffer|
      invariant count == PopCount(buffer[..i])
    {
      assert buffer[..i + 1][..i] == buffer[..i];
      count := count + CountOnes(buffer[i]);
    }
    assert buffer[..|buffer|] == buffer;
  }

  method ShiftOutAll(buffer: Bytes, origin: Origin, resolution: real, ghost flags: seq<bool>) returns (points: seq<real>)
    requires |flags| == 8 * |buffer| && forall i :: 0 <= i < |buffer| ==> ByteAt(flags, i, buffer[i])
    ensures points == Points(SetBits(flags, |flags|), origin, resolution)
  {
    points := [];
    for i := 0 to |buffer|
      invariant points == Emitted(flags, i, 0, origin, resolution)
    {
      EmittedByte(flags, i, origin, resolution);
      if buffer[i] == 0 {
        RestClear(flags, i, 0, buffer[i], origin, resolution);
        continue;
      }
      points := ShiftOut(buffer[i], i, origin, resolution, points, flags);
    }
  }

  /** `bits_to_points_optimized`: refused exactly beyond its limits, and otherwise the same points as the simple loop. */
  method BitsToPointsOptimized(buffer: Bytes, origin: Origin, resolution: real) returns (r: Result<seq<real>>)
    ensures r.Ok? <==> |buffer| <= 1024 * 1024 && resolution > 0.0 && PopCount(buffer) <= 1_000_000
    ensures r.Ok? ==> r.value == Points(Positions(buffer), origin, resolution)
    ensures r.Ok? ==> |r.value| == 3 * PopCount(buffer)
  {
    if |buffer| > MAX_BITMAP_BYTES || resolution <= 0.0 {
      return Err("Invalid LiDAR size or resolution");
    }
    var count := CountPoints(buffer);
    if count > MAX_POINTS {
      return Err("LiDAR point count exceeds resource budget");
    }
    forall i | 0 <= i < |buffer| ensures ByteAt(Flags(buffer), i, buffer[i]) {
      FlagsByte(buffer, i);
    }
    var points := ShiftOutAll(buffer, origin, resolution, Flags(buffer));
    PopCountIsSetBits(buffer, |buffer|);
    assert buffer[..|buffer|] == buffer;
    PointsLength(Positions(buffer), origin, resolution);
    r := Ok(points);
  }

  // ---------------------------------------------------------------- nothing is lost

  lemma {:induction false} PointsInjective(a: seq<nat>, b: seq<nat>, origin: Origin, resolution: real)
    requires resolution > 0.0 && Points(a, origin, resolution) == Points(b, origin, resolution)
    ensures a == b
    decreases |a|
  {
    PointsLength(a, origin, resolution);
    PointsLength(b, origin, resolution);
    if a == [] {
    } else {
      var i := |a| - 1;
      var pa, pb := Points(a[..i], origin, resolution), Points(b[..i], origin, resolution);
      var va, vb := VoxelOf(a[i]), VoxelOf(b[i]);
      PointsLength(a[..i], origin, resolution);
      PointsLength(b[..i], origin, resolution);
      assert pa == (pa + Place(va, origin, resolution))[..3 * i] == (pb + Place(vb, origin, resolution))[..3 * i] == pb;
      assert Place(va, origin, resolution) == (pa + Place(va, origin, resolution))[3 * i..];
      assert Place(vb, origin, resolution) == (pb + Place(vb, origin, resolution))[3 * i..];
      PlaceInjective(va, vb, origin, resolution);
      LinearIndexOfVoxel(a[i]);
      LinearIndexOfVoxel(b[i]);
      PointsInjective(a[..i], b[..i], origin, resolution);
      assert a == a[..i] + [a[i]] && b == b[..i] + [b[i]];
    }
  }

  lemma ScaleInjective(m: nat, n: nat, o: real, resolution: real)
    requires resolution > 0.0 && Coordinate(m, resolution, o) == Coordinate(n, resolution, o)
    ensures m == n
  {
    assert (m as real - n as real) * resolution == 0.0;
  }

  lemma PlaceInjective(v: Voxel, w: Voxel, origin: Origin, resolution: real)
    requires resolution > 0.0 && Place(v, origin, resolution) == Place(w, origin, resolution)
    ensures v == w
  {
    var p, q := Place(v, origin, resolution), Place(w, origin, resolution);
    assert p[0] == q[0] && p[1] == q[1] && p[2] == q[2];
    ScaleInjective(v.x, w.x, origin.x, resolution);
    ScaleInjective(v.y, w.y, origin.y, resolution);
    ScaleInjective(v.z, w.z, origin.z, resolution);
  }

  function Pick(b: bool, m: bv8): bv8 { if b then m else 0 }

  /** Byte i of the bitmap whose set bits are the given positions. */
  function RebuiltByte(bits: seq<nat>, i: nat): bv8 {
    Pick(8 * i in bits, 0x80) | Pick(8 * i + 1 in bits, 0x40) | Pick(8 * i + 2 in bits, 0x20) | Pick(8 * i + 3 in bits, 0x10)
    | Pick(8 * i + 4 in bits, 0x08) | Pick(8 * i + 5 in bits, 0x04) | Pick(8 * i + 6 in bits, 0x02) | Pick(8 * i + 7 in bits, 0x01)
  }

  function Rebuild(bits: seq<nat>, size: nat): Bytes {
    seq(size, i requires 0 <= i < size => RebuiltByte(bits, i))
  }

  lemma ByteFromBits(b: bv8)
    ensures b == Pick(BitOf(b, 0), 0x80) | Pick(BitOf(b, 1), 0x40) | Pick(BitOf(b, 2), 0x20) | Pick(BitOf(b, 3), 0x10)
                 | Pick(BitOf(b, 4), 0x08) | Pick(BitOf(b, 5), 0x04) | Pick(BitOf(b, 6), 0x02) | Pick(BitOf(b, 7), 0x01)
  {
    MaskForms();
    assert b == (b & 0x80) | (b & 0x40) | (b & 0x20) | (b & 0x10) | (b & 0x08) | (b & 0x04) | (b & 0x02) | (b & 0x01);
  }

  lemma InByte(buffer: Bytes, i: nat, j: nat)
    requires i < |buffer| && j < 8
    ensures 8 * i + j in Positions(buffer) <==> BitOf(buffer[i], j)
  {
    FlagsByte(buffer, i);
    assert Flags(buffer)[8 * i + j] == BitOf(buffer[i], j);
    SetBitsExactly(Flags(buffer), 8 * |buffer|);
  }

  lemma ByteRebuilt(buffer: Bytes, i: nat)
    requires i < |buffer|
    ensures RebuiltByte(Positions(buffer), i) == buffer[i]
  {
    InByte(buffer, i, 0);
    InByte(buffer, i, 1);
    InByte(buffer, i, 2);
    InByte(buffer, i, 3);
    InByte(buffer, i, 4);
    InByte(buffer, i, 5);
    InByte(buffer, i, 6);
    InByte(buffer, i, 7);
    ByteFromBits(buffer[i]);
  }

  /** The bitmap can be rebuilt from the emitted voxels' linear indices. */
  lemma RebuildRoundTrip(buffer: Bytes)
    ensures Rebuild(Positions(buffer), |buffer|) == buffer
  {
    forall i | 0 <= i < |buffer|
      ensures RebuiltByte(Positions(buffer), i) == buffer[i]
    {
      ByteRebuilt(buffer, i);
    }
  }

  /** Two bitmaps of one size that give the same points are the same bitmap. */
  lemma PointsDetermineBitmap(a: Bytes, b: Bytes, origin: Origin, resolution: real)
    requires |a| == |b| && resolution > 0.0
    requires Points(Positions(a), origin, resolution) == Points(Positions(b), origin, resolution)
    ensures a == b
  {
    PointsInjective(Positions(a), Positions(b), origin, resolution);
    RebuildRoundTrip(a);
    RebuildRoundTrip(b);
  }

  // ---------------------------------------------------------------- where each coordinate stands

  lemma {:induction false} PointsSlice(bits: seq<nat>, i: nat, origin: Origin, resolution: real)
    requires i < |bits|
    ensures |Points(bits, origin, resolution)| == 3 * |bits|
    ensures Points(bits, origin, resolution)[3 * i..3 * i + 3] == Place(VoxelOf(bits[i]), origin, resolution)
  {
    var last := |bits| - 1;
    var front, end := Points(bits[..last], origin, resolution), Place(VoxelOf(bits[last]), origin, resolution);
    PointsLength(bits, origin, resolution);
    PointsLength(bits[..last], origin, resolution);
    if i == last {
      assert (front + end)[|front|..] == end;
    } else {
      PointsSlice(bits[..last], i, origin, resolution);
      assert (front + end)[3 * i..3 * i + 3] == front[3 * i..3 * i + 3];
    }
  }

  /** The three numbers of the i-th set bit: column, row and slice of its linear index, scaled and shifted. */
  lemma PointAt(bits: seq<nat>, i: nat, x: nat, y: nat, z: nat, origin: Origin, resolution: real)
    requires i < |bits| && bits[i] == (z * 128 + y) * 128 + x && x < 128 && y < 128
    ensures |Points(bits, origin, resolution)| == 3 * |bits|
    ensures Points(bits, origin, resolution)[3 * i..3 * i + 3] ==
      [x as real * resolution + origin.x, y as real * resolution + origin.y, z as real * resolution + origin.z]
  {
    PointsSlice(bits, i, origin, resolution);
    VoxelByIndex(bits[i], x, y, z);
    Placed(x, y, z, origin, resolution);
  }

  lemma Placed(x: nat, y: nat, z: nat, origin: Origin, resolution: real)
    ensures Place(Voxel(x, y, z), origin, resolution) ==
      [x as real * resolution + origin.x, y as real * resolution + origin.y, z as real * resolution + origin.z]
  {
  }

  lemma VoxelByIndex(k: nat, x: nat, y: nat, z: nat)
    requires k == (z * 128 + y) * 128 + x && x < 128 && y < 128
    ensures VoxelOf(k) == Voxel(x, y, z)
  {
    Split128(k, z * 128 + y, x);
    Split128(z * 128 + y, z, y);
    Split16384(k, z, y * 128 + x);
  }
}
