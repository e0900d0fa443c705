/** The audio gain applied by `transform_frame::implementation::audio_volume`:
    every 16-bit sample is multiplied by an 8-bit volume on an `int`
    intermediate, shifted right by 8 and cast back to `short`. */
module AudioGain {

  /** A `short` sample. */
  type Sample = x: int | -0x8000 <= x <= 0x7FFF

  /** An `unsigned char` volume. */
  type Byte = x: int | 0 <= x <= 0xFF

  /** `static_cast<short>` of an `int`, taken as reduction modulo 2^16 into
      the signed 16-bit range (two's-complement wrap-around; C++ before C++20
      leaves out-of-range conversions implementation-defined). Values already
      in range are left as they are. */
  function ToShort(x: int): (r: Sample)
    ensures (x - r) % 0x1_0000 == 0
    ensures -0x8000 <= x <= 0x7FFF ==> r == x
  {
    if -0x8000 <= x <= 0x7FFF then x
    else
      var y := x + 0x8000;
      assert y == y / 0x1_0000 * 0x1_0000 + y % 0x1_0000;
      y % 0x1_0000 - 0x8000
  }

  /** `>> 8` on a signed `int`, taken to be an arithmetic shift (what the
      usual compilers do; C++ before C++20 leaves it implementation-defined),
      which rounds toward negative infinity, not toward zero. */
  function Shr8(x: int): (r: int)
    ensures 256 * r <= x < 256 * r + 256
  {
    x / 256
  }

  /** The product of a sample and a volume fits in a 32-bit `int`, and the
      shifted value lies between 0 and the sample, so it fits in 16 bits. */
  lemma ScaleSampleBounds(s: Sample, volume: Byte)
    ensures -0x8000_0000 <= s * volume < 0x8000_0000
    ensures (if s < 0 then s else 0) <= Shr8(s * volume) <= (if s < 0 then 0 else s)
    ensures volume == 0 ==> Shr8(s * volume) == 0
  {
    var q := Shr8(s * volume);
    if s >= 0 {
      assert 0 <= s * volume <= s * 255 by { MulMonotone(s, volume, 255); }
      assert 256 * q <= 255 * s;
    } else {
      assert 255 * s <= s * volume <= 0 by { MulMonotoneNeg(s, volume, 255); }
      assert 256 * s < 256 * q + 256;
    }
  }

  /** One sample after the loop body: `(short)(((int)s * volume) >> 8)`. The
      cast loses nothing, the result lies between 0 and the sample, and a
      zero volume gives silence. */
  function ScaleSample(s: Sample, volume: Byte): (r: Sample)
    ensures r == Shr8(s * volume)
    ensures (if s < 0 then s else 0) <= r <= (if s < 0 then 0 else s)
    ensures volume == 0 ==> r == 0
  {
    ScaleSampleBounds(s, volume);
    ToShort(Shr8(s * volume))
  }

  lemma MulMonotone(s: nat, a: nat, b: nat)
    requires a <= b
    ensures 0 <= s * a <= s * b
  {
  }

  lemma MulMonotoneNeg(s: int, a: nat, b: nat)
    requires s < 0 && a <= b
    ensures s * b <= s * a <= 0
  {
    MulMonotone(-s, a, b);
  }

  /** A reference definition of the whole buffer rescaled by `volume`, one
      sample at a time from the front. */
  function Rescaled(buf: seq<Sample>, volume: Byte): (r: seq<Sample>)
    ensures |r| == |buf|
  {
    if buf == [] then [] else [ScaleSample(buf[0], volume)] + Rescaled(buf[1..], volume)
  }

  /** Element `n` of the rescaled buffer depends only on element `n` of the
      input. */
  lemma {:induction false} RescaledAt(buf: seq<Sample>, volume: Byte, n: nat)
    requires n < |buf|
    ensures Rescaled(buf, volume)[n] == ScaleSample(buf[n], volume)
  {
    if n > 0 {
      RescaledAt(buf[1..], volume, n - 1);
    }
  }

  /** Every rescaled sample is the exact shifted product, lies between 0 and
      its input, and is 0 for a zero volume. */
  lemma RescaledBounds(buf: seq<Sample>, volume: Byte, n: nat)
    requires n < |buf|
    ensures Rescaled(buf, volume)[n] == Shr8(buf[n] * volume)
    ensures buf[n] >= 0 ==> 0 <= Rescaled(buf, volume)[n] <= buf[n]
    ensures buf[n] < 0 ==> buf[n] <= Rescaled(buf, volume)[n] <= 0
    ensures volume == 0 ==> Rescaled(buf, volume)[n] == 0
  {
    RescaledAt(buf, volume, n);
  }

  /** The full volume 255 is not unity gain: it attenuates slightly. */
  lemma FullVolumeAttenuates()
    ensures Rescaled([32767], 255) == [32639]
    ensures Rescaled([-32768], 255) == [-32640]
  {
    assert ScaleSample(32767, 255) == 32639;
    assert ScaleSample(-32768, 255) == -32640;
  }

  /** The shift rounds toward negative infinity: -1 scaled by 255 is -1, where
      truncating division would give 0. */
  lemma ShiftRoundsDown()
    ensures ScaleSample(-1, 255) == -1
    ensures ScaleSample(1, 255) == 0
  {
  }

  // ---------------------------------------------------------------------------
  // Partitioning: `tbb::parallel_for` hands out sub-ranges of [0, size), and the
  // body rescales the indices in its range and touches no other index.

  /** A `tbb::blocked_range<size_t>`: the half-open index range [lo, hi). */
  datatype Range = Range(lo: nat, hi: nat)

  predicate InRange(r: Range, n: nat)
  {
    r.lo <= n < r.hi
  }

  /** Every block lies inside a buffer of `size` samples. */
  predicate WithinBuffer(blocks: seq<Range>, size: nat)
  {
    forall i :: 0 <= i < |blocks| ==> blocks[i].lo <= blocks[i].hi <= size
  }

  /** No index belongs to two blocks. */
  ghost predicate Disjoint(blocks: seq<Range>)
  {
    forall i, j, n: nat :: 0 <= i < j < |blocks| && InRange(blocks[i], n) ==> !InRange(blocks[j], n)
  }

  predicate Covered(blocks: seq<Range>, n: nat)
  {
    exists i :: 0 <= i < |blocks| && InRange(blocks[i], n)
  }

  /** The loop of lines 47-48 run over one block: indices inside it are
      rescaled, every other index keeps its value. */
  function ScaleBlock(buf: seq<Sample>, r: Range, volume: Byte): (res: seq<Sample>)
    requires r.lo <= r.hi <= |buf|
    ensures |res| == |buf|
    ensures forall n :: 0 <= n < |buf| ==>
              res[n] == if InRange(r, n) then ScaleSample(buf[n], volume) else buf[n]
  {
    var res := buf[..r.lo] + Rescaled(buf[r.lo..r.hi], volume) + buf[r.hi..];
    forall n | r.lo <= n < r.hi
      ensures res[n] == ScaleSample(buf[n], volume)
    {
      RescaledAt(buf[r.lo..r.hi], volume, n - r.lo);
    }
    res
  }

  /** The blocks run one after another, in the order listed. */
  function ScaleBlocks(buf: seq<Sample>, blocks: seq<Range>, volume: Byte): (res: seq<Sample>)
    requires WithinBuffer(blocks, |buf|)
    ensures |res| == |buf|
    decreases |blocks|
  {
    if blocks == [] then buf
    else ScaleBlocks(ScaleBlock(buf, blocks[0], volume), blocks[1..], volume)
  }

  /** After disjoint blocks, in any order, an index covered by one of them has
      been rescaled exactly once and every other index is untouched. */
  lemma {:induction false} ScaleBlocksAt(buf: seq<Sample>, blocks: seq<Range>, volume: Byte, n: nat)
    requires WithinBuffer(blocks, |buf|) && Disjoint(blocks) && n < |buf|
    ensures ScaleBlocks(buf, blocks, volume)[n] ==
              if Covered(blocks, n) then ScaleSample(buf[n], volume) else buf[n]
    decreases |blocks|
  {
    if blocks != [] {
      var next := ScaleBlock(buf, blocks[0], volume);
      var rest := blocks[1..];
      assert Disjoint(rest) by {
        forall i, j, m: nat | 0 <= i < j < |rest| && InRange(rest[i], m)
          ensures !InRange(rest[j], m)
        {
          assert rest[i] == blocks[i + 1] && rest[j] == blocks[j + 1];
        }
      }
      ScaleBlocksAt(next, rest, volume, n);
      if InRange(blocks[0], n) {
        assert Covered(blocks, n);
        forall i | 0 <= i < |rest| ensures !InRange(rest[i], n) {
          assert rest[i] == blocks[i + 1];
        }
        assert !Covered(rest, n);
      } else {
        if Covered(rest, n) {
          var i :| 0 <= i < |rest| && InRange(rest[i], n);
          assert blocks[i + 1] == rest[i];
          assert Covered(blocks, n);
        } else {
          forall i | 0 <= i < |blocks| ensures !InRange(blocks[i], n) {
            if i > 0 { assert blocks[i] == rest[i - 1]; }
          }
        }
      }
    }
  }

  /** Partition independence: any set of disjoint blocks that covers the
      buffer, processed in any order, gives exactly the sequential result. */
  lemma PartitionIndependence(buf: seq<Sample>, blocks: seq<Range>, volume: Byte)
    requires WithinBuffer(blocks, |buf|) && Disjoint(blocks)
    requires forall n: nat :: n < |buf| ==> Covered(blocks, n)
    ensures ScaleBlocks(buf, blocks, volume) == Rescaled(buf, volume)
  {
    forall n | 0 <= n < |buf|
      ensures ScaleBlocks(buf, blocks, volume)[n] == Rescaled(buf, volume)[n]
    {
      ScaleBlocksAt(buf, blocks, volume, n);
      RescaledAt(buf, volume, n);
    }
  }
}
