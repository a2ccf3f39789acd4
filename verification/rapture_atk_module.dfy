/** The UI module's explicit-layout overlay: absolute field offsets inside a
    0x28C80-byte object, the inline name-plate table addressed by
    base-plus-index arithmetic, and the UI-visibility test on the unit
    manager's flag byte. */
module RaptureAtkModule {
  import opened Overlay
  import NamePlateInfo
  import RaptureAtkModuleFlags

  const Size: nat := 0x28C80

  datatype Field =
    | AtkModule
    | AddonNames
    | AgentModule
    | RaptureAtkUnitManager
    | Flags
    | NameplateInfoCount
    | NamePlateInfoArray
    | CharaViewDefaultBackgroundTexture

  function Offset(f: Field): nat {
    match f
    case AtkModule => 0x0
    case AddonNames => 0x10A60
    case AgentModule => 0x10B40
    case RaptureAtkUnitManager => 0x11900
    case Flags => 0x1B580
    case NameplateInfoCount => 0x1B890
    case NamePlateInfoArray => 0x1B898
    case CharaViewDefaultBackgroundTexture => 0x28C28
  }

  /** The fields in declaration order. */
  const DeclarationOrder: seq<Field> :=
    [AtkModule, AddonNames, AgentModule, RaptureAtkUnitManager, Flags,
     NameplateInfoCount, NamePlateInfoArray, CharaViewDefaultBackgroundTexture]

  /** Where the unit manager keeps its own flag byte, from its start. The
      unit manager's layout is not part of this model: this offset, and the
      flag byte's type being `RaptureAtkModuleFlags`, are taken from the
      remark on the obsolete `Flags` field that it really lives at the unit
      manager plus 0x9C80. */
  const UnitManagerFlagsOffset: nat := 0x9C80

  /** Widths of the fields whose type has a known size: a pointer, the
      byte-sized flag enum and an `int`. */
  const PointerWidth: nat := 8
  const FlagsWidth: nat := 1
  const CountWidth: nat := 4

  /** The table entries the layout is documented for: indices 0 to 50. */
  const DocumentedNamePlateInfos: nat := 51

  /** The absolute address of a field of the module at `base`. */
  function FieldAddress(base: nat, f: Field): (a: nat)
    ensures base <= a < base + Size
  {
    base + Offset(f)
  }

  /** Declared offsets grow strictly with declaration order and all lie
      inside the object; the fields of known width end before the next one
      starts. */
  lemma OffsetsIncreasing()
    ensures forall f :: f in DeclarationOrder
    ensures forall i, j :: 0 <= i < j < |DeclarationOrder| ==>
              Offset(DeclarationOrder[i]) < Offset(DeclarationOrder[j])
    ensures forall f :: Offset(f) < Size
    ensures Offset(AddonNames) + PointerWidth <= Offset(AgentModule)
    ensures Offset(Flags) + FlagsWidth <= Offset(NameplateInfoCount)
    ensures Offset(NameplateInfoCount) + CountWidth <= Offset(NamePlateInfoArray)
  {
    forall f ensures f in DeclarationOrder {
      match f
      case AtkModule => assert DeclarationOrder[0] == f;
      case AddonNames => assert DeclarationOrder[1] == f;
      case AgentModule => assert DeclarationOrder[2] == f;
      case RaptureAtkUnitManager => assert DeclarationOrder[3] == f;
      case Flags => assert DeclarationOrder[4] == f;
      case NameplateInfoCount => assert DeclarationOrder[5] == f;
      case NamePlateInfoArray => assert DeclarationOrder[6] == f;
      case CharaViewDefaultBackgroundTexture => assert DeclarationOrder[7] == f;
    }
  }

  /** The obsolete module-level `Flags` field is the unit manager's own flag
      byte: 0x11900 + 0x9C80 = 0x1B580. */
  lemma ObsoleteFlagsIsUnitManagerFlags(base: nat)
    ensures FieldAddress(base, Flags) == FieldAddress(base, RaptureAtkUnitManager) + UnitManagerFlagsOffset
  {
  }

  // ---------------------------------------------------------------------------
  // The name-plate table
  // ---------------------------------------------------------------------------

  /** `&NamePlateInfoArray[i]`. No index is rejected. */
  function NamePlateInfoAddress(base: nat, i: nat): nat {
    FieldAddress(base, NamePlateInfoArray) + i * NamePlateInfo.Size
  }

  /** Entry 0 is the field itself and each next entry is one stride further. */
  lemma NamePlateInfoStride(base: nat, i: nat)
    ensures NamePlateInfoAddress(base, 0) == FieldAddress(base, NamePlateInfoArray)
    ensures NamePlateInfoAddress(base, i + 1) == NamePlateInfoAddress(base, i) + NamePlateInfo.Size
  {
  }

  /** Distinct entries never overlap. */
  lemma NamePlateInfosDisjoint(base: nat, i: nat, j: nat)
    requires i < j
    ensures NamePlateInfoAddress(base, i) + NamePlateInfo.Size <= NamePlateInfoAddress(base, j)
  {
  }

  /** Entry `i` ends at or before the background texture exactly when
      `i < 92`; in particular every documented entry (0 to 50) does. */
  lemma NamePlateInfoFits(base: nat, i: nat)
    ensures (NamePlateInfoAddress(base, i) + NamePlateInfo.Size
               <= FieldAddress(base, CharaViewDefaultBackgroundTexture)) <==> i < 92
    ensures i < DocumentedNamePlateInfos ==>
              NamePlateInfoAddress(base, i) + NamePlateInfo.Size
                <= FieldAddress(base, CharaViewDefaultBackgroundTexture)
  {
  }

  /** `NamePlateInfoArray[i].IsPrefixTitle`, read from memory. */
  function NamePlateIsPrefixTitle(mem: Memory, base: nat, i: nat): (r: bool)
    requires NamePlateInfoAddress(base, i) + NamePlateInfo.Size <= |mem|
    ensures r <==> mem[NamePlateInfoAddress(base, i) + 0x243] == 1
  {
    NamePlateInfo.IsPrefixTitleAt(mem, NamePlateInfoAddress(base, i))
  }

  /** Writing the `Flags` word of one entry leaves what every other entry
      reports unchanged. */
  lemma NamePlateFlagsWriteIsLocal(mem: Memory, base: nat, i: nat, j: nat, flags: bv32)
    requires i != j
    requires NamePlateInfoAddress(base, i) + NamePlateInfo.Size <= |mem|
    requires NamePlateInfoAddress(base, j) + NamePlateInfo.Size <= |mem|
    ensures var m := WriteU32(mem, NamePlateInfoAddress(base, i) + NamePlateInfo.Offset(NamePlateInfo.Flags), flags);
            && NamePlateIsPrefixTitle(m, base, i) == NamePlateInfo.IsPrefixTitle(flags)
            && NamePlateIsPrefixTitle(m, base, j) == NamePlateIsPrefixTitle(mem, base, j)
  {
    var at := NamePlateInfoAddress(base, i) + NamePlateInfo.Offset(NamePlateInfo.Flags);
    NamePlateInfo.IsPrefixTitleAfterWrite(mem, NamePlateInfoAddress(base, i), flags);
    if i < j {
      NamePlateInfosDisjoint(base, i, j);
    } else {
      NamePlateInfosDisjoint(base, j, i);
    }
    var m := WriteU32(mem, at, flags);
    assert m[NamePlateInfoAddress(base, j) + 0x243] == mem[NamePlateInfoAddress(base, j) + 0x243];
  }

  // ---------------------------------------------------------------------------
  // UI visibility
  // ---------------------------------------------------------------------------

  /** The unit manager's flag byte. */
  function UnitManagerFlags(mem: Memory, base: nat): bv8
    requires base + Size <= |mem|
  {
    mem[FieldAddress(base, RaptureAtkUnitManager) + UnitManagerFlagsOffset]
  }

  /** The `IsUiVisible` getter: the UI is visible unless the unit manager's
      flags have `UiHidden`. Read through the obsolete `Flags` field, that is
      bit 0x04 of the byte at offset 0x1B580. */
  function IsUiVisible(mem: Memory, base: nat): (r: bool)
    requires base + Size <= |mem|
    ensures r <==> mem[FieldAddress(base, Flags)] & 0x04 == 0
  {
    !RaptureAtkModuleFlags.HasFlag(UnitManagerFlags(mem, base), RaptureAtkModuleFlags.UiHidden)
  }

  /** Only the `UiHidden` bit matters: rewriting the flag byte with the same
      bit 0x04, or writing any other byte of memory, does not change the
      answer. */
  lemma IsUiVisibleOnlyReadsUiHidden(mem: Memory, base: nat, addr: nat, v: bv8)
    requires base + Size <= |mem| && addr < |mem|
    requires addr == FieldAddress(base, Flags) ==> v & 0x04 == mem[addr] & 0x04
    ensures IsUiVisible(mem[addr := v], base) == IsUiVisible(mem, base)
  {
  }
}
