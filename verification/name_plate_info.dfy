/** One entry of the UI module's inline name-plate table: an explicit-layout
    record of 0x248 bytes whose last field is a 32-bit signed `Flags` word. */
module NamePlateInfo {
  import opened Overlay

  const Size: nat := 0x248

  datatype Field = ObjectID | Name | FcName | Title | DisplayTitle | LevelText | Flags

  function Offset(f: Field): nat {
    match f
    case ObjectID => 0x00
    case Name => 0x30
    case FcName => 0x98
    case Title => 0x100
    case DisplayTitle => 0x168
    case LevelText => 0x1D0
    case Flags => 0x240
  }

  /** The fields in declaration order. */
  const DeclarationOrder: seq<Field> := [ObjectID, Name, FcName, Title, DisplayTitle, LevelText, Flags]

  /** `Flags` is an `int`. */
  const FlagsWidth: nat := 4

  /** Declared offsets grow with declaration order, and the 4-byte `Flags`
      word ends inside the record. */
  lemma LayoutIsOrdered()
    ensures forall f :: f in DeclarationOrder
    ensures forall i, j :: 0 <= i < j < |DeclarationOrder| ==>
              Offset(DeclarationOrder[i]) < Offset(DeclarationOrder[j])
    ensures Offset(Flags) + FlagsWidth <= Size
  {
    forall f ensures f in DeclarationOrder {
      match f
      case ObjectID => assert DeclarationOrder[0] == f;
      case Name => assert DeclarationOrder[1] == f;
      case FcName => assert DeclarationOrder[2] == f;
      case Title => assert DeclarationOrder[3] == f;
      case DisplayTitle => assert DeclarationOrder[4] == f;
      case LevelText => assert DeclarationOrder[5] == f;
      case Flags => assert DeclarationOrder[6] == f;
    }
  }

  /** The two's-complement value of a 32-bit word, as C# `int` reads it. */
  function Signed(v: bv32): int {
    if v & 0x8000_0000 == 0 then v as int else v as int - 0x1_0000_0000
  }

  /** C#'s `>>` on `int`: an arithmetic shift, which fills the vacated high
      bits with copies of the sign bit. */
  function Sar(v: bv32, n: bv32): (r: bv32)
    requires n < 32
    ensures v & 0x8000_0000 == 0 ==> r == v >> n
    ensures v & 0x8000_0000 != 0 ==> r | (0xFFFF_FFFF >> n) == 0xFFFF_FFFF
  {
    if v & 0x8000_0000 == 0 then v >> n else !((!v) >> n)
  }

  /** Whether the title goes before the name: the most significant byte of
      `Flags` is 1. The mask discards the sign bits the arithmetic shift
      brings in, so this reads the top byte for negative values too. */
  function IsPrefixTitle(flags: bv32): (r: bool)
    ensures r <==> (flags >> 24) == 1
  {
    (Sar(flags, 8 * 3) & 0xFF) == 1
  }

  /** In terms of the signed value: a prefix title is flagged exactly for
      values from 0x0100_0000 to 0x01FF_FFFF, so never for a negative one. */
  lemma IsPrefixTitleRange(flags: bv32)
    ensures IsPrefixTitle(flags) <==> 0x0100_0000 <= flags < 0x0200_0000
    ensures IsPrefixTitle(flags) <==> 0x0100_0000 <= Signed(flags) < 0x0200_0000
    ensures Signed(flags) < 0 ==> !IsPrefixTitle(flags)
  {
  }

  /** Read through an overlay: the flag is the last byte of the little-endian
      `Flags` word of the record at `addr`. */
  function IsPrefixTitleAt(mem: Memory, addr: nat): (r: bool)
    requires addr + Size <= |mem|
    ensures r <==> mem[addr + Offset(Flags) + 3] == 1
  {
    var flags := ReadU32(mem, addr + Offset(Flags));
    assert ByteOf(flags, 3) == mem[addr + Offset(Flags) + 3];
    IsPrefixTitle(flags)
  }

  /** Storing a `Flags` word and reading the flag back agrees with
      `IsPrefixTitle` of the stored word. */
  lemma IsPrefixTitleAfterWrite(mem: Memory, addr: nat, flags: bv32)
    requires addr + Size <= |mem|
    ensures IsPrefixTitleAt(WriteU32(mem, addr + Offset(Flags), flags), addr) == IsPrefixTitle(flags)
  {
    ReadAfterWriteU32(mem, addr + Offset(Flags), flags);
  }
}
