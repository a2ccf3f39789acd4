/** The `[Flags]` byte enum shared by the UI module and its unit manager. */
module RaptureAtkModuleFlags {

  datatype Flag = None | Unk01 | Unk02 | UiHidden | Unk08 | Unk10 | Unk20 | Unk40 | Unk80

  function Value(f: Flag): bv8 {
    match f
    case None => 0x00
    case Unk01 => 0x01
    case Unk02 => 0x02
    case UiHidden => 0x04
    case Unk08 => 0x08
    case Unk10 => 0x10
    case Unk20 => 0x20
    case Unk40 => 0x40
    case Unk80 => 0x80
  }

  /** `Enum.HasFlag`: every bit of `f` is set in `v`. Every byte has
      `None`; for a single-bit member it is a test of that one bit. */
  function HasFlag(v: bv8, f: Flag): (r: bool)
    ensures f == None ==> r
    ensures f != None ==> (r <==> v & Value(f) != 0)
  {
    v & Value(f) == Value(f)
  }

  /** Bitwise union of the values of `fs`. */
  function Combine(fs: seq<Flag>): bv8 {
    if |fs| == 0 then 0 else Value(fs[0]) | Combine(fs[1..])
  }

  /** The single-bit members, lowest bit first. */
  const Bits: seq<Flag> := [Unk01, Unk02, UiHidden, Unk08, Unk10, Unk20, Unk40, Unk80]

  function Filter(v: bv8, fs: seq<Flag>): (r: seq<Flag>)
    ensures forall f :: f in r <==> f in fs && HasFlag(v, f)
  {
    if |fs| == 0 then []
    else (if HasFlag(v, fs[0]) then [fs[0]] else []) + Filter(v, fs[1..])
  }

  /** The single-bit members that `v` has. */
  function FlagsOf(v: bv8): (fs: seq<Flag>)
    ensures forall f :: f in fs <==> f != None && HasFlag(v, f)
  {
    Filter(v, Bits)
  }

  /** `None` is zero; every other member is one bit, no two members share a
      value, and together the single-bit members cover the whole byte. */
  lemma ValuesAreDistinctSingleBits()
    ensures Value(None) == 0
    ensures forall f :: f != None ==> Value(f) != 0 && Value(f) & (Value(f) - 1) == 0
    ensures forall f, g :: Value(f) == Value(g) ==> f == g
    ensures Combine(Bits) == 0xFF
  {
  }

  /** Every byte is exactly the union of the members it has. */
  lemma FlagsDecomposeByte(v: bv8)
    ensures Combine(FlagsOf(v)) == v
  {
    FilterKeepsBits(v, Bits);
  }

  /** Keeping the members of `fs` that `v` has keeps exactly the bits of
      `v` among those of `fs`. */
  lemma {:induction false} FilterKeepsBits(v: bv8, fs: seq<Flag>)
    ensures Combine(Filter(v, fs)) == v & Combine(fs)
  {
    if |fs| > 0 {
      FilterKeepsBits(v, fs[1..]);
      FilterFirst(v, fs);
      Distribute(v, Value(fs[0]), Combine(fs[1..]));
    } else {
      assert v & 0 == 0;
    }
  }

  lemma FilterFirst(v: bv8, fs: seq<Flag>)
    requires |fs| > 0
    ensures Combine(Filter(v, fs)) == (v & Value(fs[0])) | Combine(Filter(v, fs[1..]))
  {
    var rest := Filter(v, fs[1..]);
    KeptBit(v, fs[0]);
    if HasFlag(v, fs[0]) {
      assert Filter(v, fs) == [fs[0]] + rest;
      assert ([fs[0]] + rest)[1..] == rest;
    } else {
      assert Filter(v, fs) == rest;
      assert v & Value(fs[0]) == 0;
    }
  }

  lemma KeptBit(v: bv8, f: Flag)
    ensures (if HasFlag(v, f) then Value(f) else 0) == v & Value(f)
  {
  }

  lemma Distribute(v: bv8, a: bv8, b: bv8)
    ensures (v & a) | (v & b) == v & (a | b)
  {
  }
}
