/** Zero-copy overlays on foreign memory: a byte-addressed window of the
    target process, read and written at `base + offset`. Multi-byte integers
    use the target's native order, little-endian (x86-64). */
module Overlay {

  type Memory = seq<bv8>

  /** Byte `k` (0 = least significant) of a 32-bit value. */
  function ByteOf(v: bv32, k: nat): (r: bv8)
    requires k < 4
  {
    match k
    case 0 => (v & 0xFF) as bv8
    case 1 => ((v >> 8) & 0xFF) as bv8
    case 2 => ((v >> 16) & 0xFF) as bv8
    case _ => (v >> 24) as bv8
  }

  /** The 32-bit value stored little-endian at `addr`. */
  function ReadU32(mem: Memory, addr: nat): (v: bv32)
    requires addr + 4 <= |mem|
    ensures forall k :: 0 <= k < 4 ==> ByteOf(v, k) == mem[addr + k]
  {
    (mem[addr] as bv32)
    | ((mem[addr + 1] as bv32) << 8)
    | ((mem[addr + 2] as bv32) << 16)
    | ((mem[addr + 3] as bv32) << 24)
  }

  /** Stores `v` little-endian at `addr`; every other byte is left alone. */
  function WriteU32(mem: Memory, addr: nat, v: bv32): (m: Memory)
    requires addr + 4 <= |mem|
    ensures |m| == |mem|
    ensures forall k :: 0 <= k < 4 ==> m[addr + k] == ByteOf(v, k)
    ensures forall a :: 0 <= a < |mem| && !(addr <= a < addr + 4) ==> m[a] == mem[a]
  {
    mem[addr := ByteOf(v, 0)][addr + 1 := ByteOf(v, 1)][addr + 2 := ByteOf(v, 2)][addr + 3 := ByteOf(v, 3)]
  }

  /** A value is determined by its four bytes. */
  lemma BytesDetermineU32(v: bv32, w: bv32)
    requires forall k :: 0 <= k < 4 ==> ByteOf(v, k) == ByteOf(w, k)
    ensures v == w
  {
    assert ByteOf(v, 0) == ByteOf(w, 0);
    assert ByteOf(v, 1) == ByteOf(w, 1);
    assert ByteOf(v, 2) == ByteOf(w, 2);
    assert ByteOf(v, 3) == ByteOf(w, 3);
  }

  /** Reading a field back after writing it gives the written value. */
  lemma ReadAfterWriteU32(mem: Memory, addr: nat, v: bv32)
    requires addr + 4 <= |mem|
    ensures ReadU32(WriteU32(mem, addr, v), addr) == v
  {
    var r := ReadU32(WriteU32(mem, addr, v), addr);
    BytesDetermineU32(r, v);
  }

  /** Writing back what was read changes nothing. */
  lemma WriteWhatWasReadU32(mem: Memory, addr: nat)
    requires addr + 4 <= |mem|
    ensures WriteU32(mem, addr, ReadU32(mem, addr)) == mem
  {
    var m := WriteU32(mem, addr, ReadU32(mem, addr));
    assert forall a :: 0 <= a < |mem| ==> m[a] == mem[a] by {
      forall a | 0 <= a < |mem| ensures m[a] == mem[a] {
        if addr <= a < addr + 4 {
          assert m[addr + (a - addr)] == mem[addr + (a - addr)];
        }
      }
    }
  }

  /** A field write leaves every field that does not overlap it unchanged. */
  lemma DisjointWriteU32(mem: Memory, addr: nat, v: bv32, other: nat)
    requires addr + 4 <= |mem| && other + 4 <= |mem|
    requires other + 4 <= addr || addr + 4 <= other
    ensures ReadU32(WriteU32(mem, addr, v), other) == ReadU32(mem, other)
  {
    var m := WriteU32(mem, addr, v);
    assert m[other] == mem[other] && m[other + 1] == mem[other + 1];
    assert m[other + 2] == mem[other + 2] && m[other + 3] == mem[other + 3];
    var after, before := ReadU32(m, other), ReadU32(mem, other);
    assert forall k :: 0 <= k < 4 ==> ByteOf(after, k) == m[other + k] == mem[other + k] == ByteOf(before, k);
    BytesDetermineU32(after, before);
  }
}
