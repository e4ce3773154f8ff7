/**
 * Sliding-window frame synchronisation, shared by every response parser of
 * src/helpers.rs: the first offset of a received buffer at which a frame of a
 * given shape starts (an address byte, enough bytes, a matching checksum and,
 * for some shapes, a trailing 0x00).
 */
module Frames {
  import opened Bytes
  import opened Wrappers
  import Servo42

  /**
   * A response frame of `length` bytes whose byte at offset `span` is the
   * wrapping sum of bytes `0 .. span - 1`; with `trailingZero`, its last byte
   * must be 0x00.
   */
  datatype FrameShape = FrameShape(length: nat, span: nat, trailingZero: bool)

  const ENCODER_FRAME := FrameShape(8, 7, false)
  const SHAFT_ANGLE_FRAME := FrameShape(6, 5, false)
  const ANGLE_ERROR_FRAME := FrameShape(5, 3, true)
  const STATUS_FRAME := FrameShape(3, 2, false)

  predicate WellFormed(f: FrameShape)
  {
    1 <= f.span < f.length
  }

  /** A byte in the slave address range 0xE0..0xE9. */
  predicate IsAddress(b: uint8)
  {
    Servo42.MIN_ADDRESS <= b <= Servo42.MAX_ADDRESS
  }

  /** A frame of shape `f` starts at offset `i` of `data`. */
  predicate FrameAt(f: FrameShape, data: seq<uint8>, i: nat)
  {
    && WellFormed(f)
    && i + f.length <= |data|
    && IsAddress(data[i])
    && data[i + f.span] == Sum(data[i..i + f.span]) % 0x100
    && (f.trailingZero ==> data[i + f.length - 1] == 0x00)
  }

  /** The scan from offset `from` on: the first offset there that starts a frame. */
  function ScanFrom(f: FrameShape, data: seq<uint8>, from: nat): (r: Option<nat>)
    requires from <= |data|
    decreases |data| - from
    ensures r.Some? ==> from <= r.value && FrameAt(f, data, r.value)
    ensures r.Some? ==> forall j :: from <= j < r.value ==> !FrameAt(f, data, j)
    ensures r.None? ==> forall j :: from <= j ==> !FrameAt(f, data, j)
  {
    if from == |data| then None
    else if FrameAt(f, data, from) then Some(from)
    else ScanFrom(f, data, from + 1)
  }

  /** The lowest offset of `data` at which a frame of shape `f` starts, if any. */
  function FirstFrame(f: FrameShape, data: seq<uint8>): (r: Option<nat>)
    ensures r.Some? ==> FrameAt(f, data, r.value) && r.value + f.length <= |data|
    ensures r.Some? ==> forall j: nat :: j < r.value ==> !FrameAt(f, data, j)
    ensures r.None? <==> forall j: nat :: !FrameAt(f, data, j)
  {
    ScanFrom(f, data, 0)
  }

  /** An offset that starts a frame, with none before it, is the first frame. */
  lemma FirstFrameIs(f: FrameShape, data: seq<uint8>, k: nat)
    requires FrameAt(f, data, k)
    requires forall j :: 0 <= j < k ==> !FrameAt(f, data, j)
    ensures FirstFrame(f, data) == Some(k)
  {
  }

  /** Bytes before the data shift every frame of it by their number. */
  lemma ShiftFrameAt(f: FrameShape, pre: seq<uint8>, data: seq<uint8>, j: nat)
    ensures FrameAt(f, pre + data, j + |pre|) <==> FrameAt(f, data, j)
    ensures j + f.length <= |data| ==> (pre + data)[j + |pre|..j + |pre| + f.length] == data[j..j + f.length]
  {
    var all := pre + data;
    var i := j + |pre|;
    if WellFormed(f) && j + f.length <= |data| {
      assert all[i..i + f.span] == data[j..j + f.span];
    }
  }

  /**
   * Prefix tolerance: prepending bytes none of which is an address does not
   * change which frame is found, only its offset, and the found window holds
   * the same bytes.
   */
  lemma {:induction false} PrefixTolerance(f: FrameShape, pre: seq<uint8>, data: seq<uint8>)
    requires forall i :: 0 <= i < |pre| ==> !IsAddress(pre[i])
    ensures FirstFrame(f, data).None? ==> FirstFrame(f, pre + data).None?
    ensures FirstFrame(f, data).Some? ==>
      var k := FirstFrame(f, data).value;
      && FirstFrame(f, pre + data) == Some(k + |pre|)
      && (pre + data)[k + |pre|..k + |pre| + f.length] == data[k..k + f.length]
  {
    var all := pre + data;
    forall j: nat | j < |pre|
      ensures !FrameAt(f, all, j)
    {
      assert all[j] == pre[j];
    }
    forall j: nat
      ensures FrameAt(f, all, j + |pre|) <==> FrameAt(f, data, j)
    {
      ShiftFrameAt(f, pre, data, j);
    }
    var r := FirstFrame(f, data);
    if r.None? {
      forall i: nat
        ensures !FrameAt(f, all, i)
      {
        if i >= |pre| {
          assert FrameAt(f, all, (i - |pre|) + |pre|) <==> FrameAt(f, data, i - |pre|);
        }
      }
    } else {
      var k := r.value;
      forall i: nat | i < k + |pre|
        ensures !FrameAt(f, all, i)
      {
        if i >= |pre| {
          assert FrameAt(f, all, (i - |pre|) + |pre|) <==> FrameAt(f, data, i - |pre|);
        }
      }
      FirstFrameIs(f, all, k + |pre|);
      ShiftFrameAt(f, pre, data, k);
    }
  }

  /**
   * A buffer no longer than one frame holds a frame only at offset 0: a buffer
   * shorter than the frame holds none, and one whose only window fails any
   * condition (address, checksum, trailing byte) holds none either.
   */
  lemma LoneWindow(f: FrameShape, data: seq<uint8>)
    requires |data| <= f.length
    ensures FirstFrame(f, data) == (if FrameAt(f, data, 0) then Some(0) else None)
    ensures |data| < f.length ==> FirstFrame(f, data) == None
  {
    if FrameAt(f, data, 0) {
      FirstFrameIs(f, data, 0);
    }
  }
}
