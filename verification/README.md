# Binary-interop core: struct descriptors and the UI module overlay

This project models two pieces of the interop layer that lets plugin code see
the memory of the game process as typed structs.

1. **The struct descriptor of the interop source generator** (`StructInfo`).
   For a struct declaration, the generator builds a descriptor
   `StructInfo(Name, Namespace, Hierarchy)`. It runs two independent checks:
   the struct must be `partial`, and every enclosing type declaration must be
   a struct. It combines them applicatively, so a declaration that breaks both
   rules gets both diagnostics. From the descriptor the generator then writes
   the `unsafe partial struct` wrappers that generated members go into: one
   per enclosing struct, outermost first, then one for the struct itself, and
   the matching closing braces.
2. **The `RaptureAtkModule` overlay.** This is an explicit-layout struct of
   0x28C80 bytes. It has absolute field offsets, an inline table of
   0x248-byte `NamePlateInfo` records, a byte-sized `[Flags]` enum, and two
   bit helpers. `IsPrefixTitle` reads the top byte of a signed 32-bit word
   after an arithmetic shift. The `IsUiVisible` getter tests the `UiHidden`
   bit of the unit manager's flag byte.

Modules:

- `Validation`: `Validation<E, T>` as `Success(value)` or `Fail(errors)`, and
  the applicative `Apply`, which keeps the errors of both sides, left first.
- `IndentedStringBuilder`: the builder as its observable state. That state
  is the lines written so far, each with the indentation level current when
  it was written, plus the current level.
- `StructInfo`: the syntax model, `GetHierarchy`, `GetFromSyntax`,
  `GetThisPtrTypeString`, `RenderStart` and `RenderEnd`, with their ordering
  and balance lemmas.
- `Overlay`: foreign memory as a byte sequence. It has little-endian 32-bit
  reads and writes, their round trip, and the fact that a write is local.
- `RaptureAtkModuleFlags`: the flag enum, `HasFlag`, and the decomposition of
  a byte into its flags.
- `NamePlateInfo`: the record layout, the arithmetic shift and
  `IsPrefixTitle`.
- `RaptureAtkModule`: the offset table, element addresses in the name-plate
  table, and `IsUiVisible`.

The syntax tree is reduced to what the generator reads from it:

- the struct's identifier;
- its name with the type parameter list;
- its file-scoped namespace;
- whether it has the `partial` modifier;
- the chain of enclosing type declarations, innermost first. The chain ends
  at the first parent that is not a type declaration.

Each link of the chain is `StructDecl(name)` or `OtherTypeDecl(name)`.

## Model

| member | source | states |
|---|---|---|
| `Validation.Apply` | lib/FFXIVClientStructs/FFXIVClientStructs.InteropSourceGenerators/Models/StructInfo.cs:27-31 | The combination succeeds iff both sides succeed, and then applies the constructor to both values. The errors are those of the left side followed by those of the right side, so no diagnostic is dropped. When both inputs are valid, a failure carries at least one error. |
| `StructInfo.CheckPartial` | lib/FFXIVClientStructs/FFXIVClientStructs.InteropSourceGenerators/Models/StructInfo.cs:16-24 | A struct with the `partial` modifier passes through unchanged. Otherwise the only error is `StructMustBePartial`, keyed to the struct's own identifier. |
| `StructInfo.WalkHierarchy` | lib/FFXIVClientStructs/FFXIVClientStructs.InteropSourceGenerators/Models/StructInfo.cs:38-56 | The parent walk succeeds iff every enclosing type declaration is a struct. On success each enclosing name is appended after the accumulated ones, in walk order. Otherwise the only error is `NestedStructMustBeContainedInStructs`, keyed to the nested struct's identifier and not to the offending parent. |
| `StructInfo.GetHierarchy` | lib/FFXIVClientStructs/FFXIVClientStructs.InteropSourceGenerators/Models/StructInfo.cs:34-57 | Succeeds iff all enclosing type declarations are structs. The names are innermost first, one per enclosing declaration. Otherwise the result is the single nesting diagnostic. |
| `StructInfo.HierarchyIgnoresAncestorsAboveNonStruct` | lib/FFXIVClientStructs/FFXIVClientStructs.InteropSourceGenerators/Models/StructInfo.cs:40-54 | Once the walk meets a non-struct type declaration, it fails whatever lies above it. Cutting the chain just after that declaration gives the same result. |
| `StructInfo.Reverse` | lib/FFXIVClientStructs/FFXIVClientStructs.InteropSourceGenerators/Models/StructInfo.cs:31 | The reversed sequence has the same length, and element i is element `n-1-i` of the input. |
| `StructInfo.GetFromSyntax` | lib/FFXIVClientStructs/FFXIVClientStructs.InteropSourceGenerators/Models/StructInfo.cs:14-32 | The result is a success iff the struct is partial and all enclosing declarations are structs. The errors are exactly the failing checks' diagnostics, the partial one first, so a non-partial struct nested in a class gets both. On success the name and namespace are the declaration's. The hierarchy has one entry per enclosing struct, with entry i the `(n-1-i)`-th ancestor, which is outermost first. |
| `StructInfo.GetThisPtrTypeString` | lib/FFXIVClientStructs/FFXIVClientStructs.InteropSourceGenerators/Models/StructInfo.cs:59 | The string is the struct name followed by exactly `*, `. |
| `StructInfo.ThisPtrTypeStringInjective` | lib/FFXIVClientStructs/FFXIVClientStructs.InteropSourceGenerators/Models/StructInfo.cs:59 | Equal pointer-type strings come from equal struct names, so the name can be recovered from the string. |
| `StructInfo.IsNullOrWhiteSpace` | lib/FFXIVClientStructs/FFXIVClientStructs.InteropSourceGenerators/Models/StructInfo.cs:65 | The empty (null) namespace qualifies. A namespace whose first or last character is not .NET white space does not. |
| `StructInfo.NullOrWhiteSpaceByFirst` | lib/FFXIVClientStructs/FFXIVClientStructs.InteropSourceGenerators/Models/StructInfo.cs:65 | A non-empty namespace qualifies iff its first character is .NET white space and the rest qualifies. |
| `StructInfo.RenderHeader` | lib/FFXIVClientStructs/FFXIVClientStructs.InteropSourceGenerators/Models/StructInfo.cs:63-71 | The header is the auto-generated marker and, when there is a namespace, a blank line and `namespace N;`, then a blank line. It is 2 or 4 lines. The level is unchanged, and among these lines a namespace declaration appears iff the namespace is not null or white space, and only as the third line. |
| `StructInfo.NamespaceLineIffNamespace` | lib/FFXIVClientStructs/FFXIVClientStructs.InteropSourceGenerators/Models/StructInfo.cs:63-82 | Among all lines `RenderStart` writes, a line starting with `namespace ` is written iff the namespace is not null or white space. That line is the third one written. |
| `StructInfo.RenderStartNamespaceLine` | lib/FFXIVClientStructs/FFXIVClientStructs.InteropSourceGenerators/Models/StructInfo.cs:65-69 | With a namespace, the third line written is `namespace N;` at the starting level. |
| `StructInfo.OpenStruct` | lib/FFXIVClientStructs/FFXIVClientStructs.InteropSourceGenerators/Models/StructInfo.cs:80-82 | Writes the opener and a `{` at the current level, then goes one level deeper. |
| `StructInfo.OpenAll` | lib/FFXIVClientStructs/FFXIVClientStructs.InteropSourceGenerators/Models/StructInfo.cs:73-78 | Writes two lines per enclosing struct, in order. Entry i gets `unsafe partial struct X` and `{` at the starting level plus i. The earlier lines are kept, and the level rises by the number of entries. |
| `StructInfo.RenderStart` | lib/FFXIVClientStructs/FFXIVClientStructs.InteropSourceGenerators/Models/StructInfo.cs:61-83 | The level rises by `|Hierarchy|+1`. Exactly header plus `2(|Hierarchy|+1)` lines are added. Earlier lines are untouched, and the first added line is the auto-generated marker. |
| `StructInfo.RenderStartOpeners` | lib/FFXIVClientStructs/FFXIVClientStructs.InteropSourceGenerators/Models/StructInfo.cs:73-82 | After the header, opener j names the j-th hierarchy entry and sits at depth j. The last opener names the struct itself and sits at depth `|Hierarchy|`. |
| `StructInfo.OpenAllWritesNoNamespaceLine` | lib/FFXIVClientStructs/FFXIVClientStructs.InteropSourceGenerators/Models/StructInfo.cs:73-78 | No wrapper line looks like a namespace declaration. |
| `StructInfo.CloseStruct` | lib/FFXIVClientStructs/FFXIVClientStructs.InteropSourceGenerators/Models/StructInfo.cs:87-88 | The level is lowered first, and `}` is then written at the lowered level. |
| `StructInfo.CloseAll` | lib/FFXIVClientStructs/FFXIVClientStructs.InteropSourceGenerators/Models/StructInfo.cs:90-94 | Writes one `}` per hierarchy entry, each one level lower than the previous. Only `}` lines are written, and the level drops by the number of entries. |
| `StructInfo.RenderEnd` | lib/FFXIVClientStructs/FFXIVClientStructs.InteropSourceGenerators/Models/StructInfo.cs:85-95 | Writes `|Hierarchy|+1` closing braces, the k-th one at the starting level minus `1+k`, and nothing else. The level drops by `|Hierarchy|+1`. |
| `StructInfo.OpenAllCounts` | lib/FFXIVClientStructs/FFXIVClientStructs.InteropSourceGenerators/Models/StructInfo.cs:73-78 | The wrappers of the enclosing structs add one `{` line each and no `}` line. |
| `StructInfo.RenderStartCounts` | lib/FFXIVClientStructs/FFXIVClientStructs.InteropSourceGenerators/Models/StructInfo.cs:61-83 | `RenderStart` adds exactly `|Hierarchy|+1` `{` lines and no `}` line. |
| `StructInfo.CloseAllCounts` | lib/FFXIVClientStructs/FFXIVClientStructs.InteropSourceGenerators/Models/StructInfo.cs:90-94 | The closing loop adds one `}` line per entry and no `{` line. |
| `StructInfo.RenderEndCounts` | lib/FFXIVClientStructs/FFXIVClientStructs.InteropSourceGenerators/Models/StructInfo.cs:85-95 | `RenderEnd` adds exactly `|Hierarchy|+1` `}` lines and no `{` line. |
| `StructInfo.RenderStartEndBalanced` | lib/FFXIVClientStructs/FFXIVClientStructs.InteropSourceGenerators/Models/StructInfo.cs:61-95 | `RenderStart` followed by `RenderEnd` leaves the level where it started. It adds equal numbers of `{` and `}` lines, `|Hierarchy|+1` of each. |
| `StructInfo.RenderBracesPair` | lib/FFXIVClientStructs/FFXIVClientStructs.InteropSourceGenerators/Models/StructInfo.cs:73-94 | The brace opened at depth j is closed at the same level by the `(|Hierarchy|-j)`-th closer. The closers mirror the openers. |
| `IndentedStringBuilder.AppendLine` | lib/FFXIVClientStructs/FFXIVClientStructs.InteropSourceGenerators/Models/StructInfo.cs:63-71 | Appending keeps every earlier line and adds one line at the current level. The level is unchanged. |
| `IndentedStringBuilder.Indent` | lib/FFXIVClientStructs/FFXIVClientStructs.InteropSourceGenerators/Models/StructInfo.cs:77-82 | `Indent()` raises the level by one and writes no line. |
| `IndentedStringBuilder.DecrementIndent` | lib/FFXIVClientStructs/FFXIVClientStructs.InteropSourceGenerators/Models/StructInfo.cs:87-92 | `DecrementIndent()` lowers the level by one and writes no line. |
| `IndentedStringBuilder.CountAppendLine` | lib/FFXIVClientStructs/FFXIVClientStructs.InteropSourceGenerators/Models/StructInfo.cs:76 | Appending a line adds one to the count of its own text and none to any other. |
| `Overlay.ReadU32` | lib/FFXIVClientStructs/FFXIVClientStructs/FFXIV/Client/UI/RaptureAtkModule.cs:64 | An `int` field read at an address has byte k equal to the memory byte at address plus k (little-endian). |
| `Overlay.WriteU32` | lib/FFXIVClientStructs/FFXIVClientStructs/FFXIV/Client/UI/RaptureAtkModule.cs:64 | Writing an `int` field stores its four bytes little-endian and changes no other byte. |
| `Overlay.ReadAfterWriteU32` | lib/FFXIVClientStructs/FFXIVClientStructs/FFXIV/Client/UI/RaptureAtkModule.cs:64 | Reading a field back after writing it gives the written value. |
| `Overlay.WriteWhatWasReadU32` | lib/FFXIVClientStructs/FFXIVClientStructs/FFXIV/Client/UI/RaptureAtkModule.cs:64 | Writing back the value just read leaves memory unchanged. |
| `Overlay.DisjointWriteU32` | lib/FFXIVClientStructs/FFXIVClientStructs/FFXIV/Client/UI/RaptureAtkModule.cs:55-64 | A write leaves every non-overlapping `int` field as it was. |
| `RaptureAtkModuleFlags.FlagsOf` | lib/FFXIVClientStructs/FFXIVClientStructs/FFXIV/Client/UI/RaptureAtkModule.cs:70-81 | The flags a byte has are exactly the single-bit members whose bit is set in it. |
| `RaptureAtkModuleFlags.ValuesAreDistinctSingleBits` | lib/FFXIVClientStructs/FFXIVClientStructs/FFXIV/Client/UI/RaptureAtkModule.cs:70-81 | `None` is 0, and every other member is a single bit. No two members share a value, and the single-bit members together cover 0xFF. |
| `RaptureAtkModuleFlags.HasFlag` | lib/FFXIVClientStructs/FFXIVClientStructs/FFXIV/Client/UI/RaptureAtkModule.cs:51 | `Enum.HasFlag` holds for `None` on every byte. For a single-bit member it is true iff that bit is set. |
| `RaptureAtkModuleFlags.FlagsDecomposeByte` | lib/FFXIVClientStructs/FFXIVClientStructs/FFXIV/Client/UI/RaptureAtkModule.cs:70-81 | Every byte equals the bitwise union of the flags it has, so the flags round-trip through their byte. |
| `RaptureAtkModuleFlags.FilterKeepsBits` | lib/FFXIVClientStructs/FFXIVClientStructs/FFXIV/Client/UI/RaptureAtkModule.cs:70-81 | Keeping the members a byte has out of any list keeps exactly the byte's bits among that list's bits. |
| `NamePlateInfo.LayoutIsOrdered` | lib/FFXIVClientStructs/FFXIVClientStructs/FFXIV/Client/UI/RaptureAtkModule.cs:55-64 | The record's field offsets strictly increase in declaration order. The 4-byte `Flags` at 0x240 ends within the 0x248-byte record. |
| `NamePlateInfo.Sar` | lib/FFXIVClientStructs/FFXIVClientStructs/FFXIV/Client/UI/RaptureAtkModule.cs:66 | For a non-negative word, C#'s `>>` on `int` equals the logical shift. For a negative word, every bit the logical shift would clear is set instead. |
| `NamePlateInfo.IsPrefixTitle` | lib/FFXIVClientStructs/FFXIVClientStructs/FFXIV/Client/UI/RaptureAtkModule.cs:66 | True iff the most significant byte of the 32-bit `Flags` is 1. This holds for negative words too, because the mask drops the sign bits brought in by the shift. |
| `NamePlateInfo.IsPrefixTitleRange` | lib/FFXIVClientStructs/FFXIVClientStructs/FFXIV/Client/UI/RaptureAtkModule.cs:66 | True iff the signed value is in `[0x0100_0000, 0x0200_0000)`, so never for a negative `Flags`. |
| `NamePlateInfo.IsPrefixTitleAt` | lib/FFXIVClientStructs/FFXIVClientStructs/FFXIV/Client/UI/RaptureAtkModule.cs:64-66 | Read through memory, the flag is true iff byte `0x243` of the record is 1. That byte is the last byte of the little-endian `Flags` word. |
| `NamePlateInfo.IsPrefixTitleAfterWrite` | lib/FFXIVClientStructs/FFXIVClientStructs/FFXIV/Client/UI/RaptureAtkModule.cs:64-66 | After a `Flags` word is stored in a record, the record reports `IsPrefixTitle` of that word. |
| `RaptureAtkModule.FieldAddress` | lib/FFXIVClientStructs/FFXIVClientStructs/FFXIV/Client/UI/RaptureAtkModule.cs:11-29 | Every declared field starts inside the 0x28C80-byte object. |
| `RaptureAtkModule.OffsetsIncreasing` | lib/FFXIVClientStructs/FFXIVClientStructs/FFXIV/Client/UI/RaptureAtkModule.cs:11-29 | Field offsets strictly increase in declaration order and are all below `Size = 0x28C80`. The pointer, the flag byte and the `int` count end before the next field starts. |
| `RaptureAtkModule.ObsoleteFlagsIsUnitManagerFlags` | lib/FFXIVClientStructs/FFXIVClientStructs/FFXIV/Client/UI/RaptureAtkModule.cs:22-24 | The obsolete `Flags` field is at the unit manager's offset plus 0x9C80, that is 0x11900 + 0x9C80 = 0x1B580, as its comment says. |
| `RaptureAtkModule.NamePlateInfoStride` | lib/FFXIVClientStructs/FFXIVClientStructs/FFXIV/Client/UI/RaptureAtkModule.cs:27 | Entry 0 is at the array field, and each next entry is 0x248 bytes further. |
| `RaptureAtkModule.NamePlateInfosDisjoint` | lib/FFXIVClientStructs/FFXIVClientStructs/FFXIV/Client/UI/RaptureAtkModule.cs:55 | Distinct table entries never overlap. |
| `RaptureAtkModule.NamePlateInfoFits` | lib/FFXIVClientStructs/FFXIVClientStructs/FFXIV/Client/UI/RaptureAtkModule.cs:27-29 | Entry i ends at or before `CharaViewDefaultBackgroundTexture` (0x28C28) iff i < 92. In particular every entry of the commented range 0 to 50 does. |
| `RaptureAtkModule.NamePlateIsPrefixTitle` | lib/FFXIVClientStructs/FFXIVClientStructs/FFXIV/Client/UI/RaptureAtkModule.cs:27 | `NamePlateInfoArray[i].IsPrefixTitle` is true iff the byte at entry address + 0x243 is 1. |
| `RaptureAtkModule.NamePlateFlagsWriteIsLocal` | lib/FFXIVClientStructs/FFXIVClientStructs/FFXIV/Client/UI/RaptureAtkModule.cs:55-66 | Storing one entry's `Flags` makes that entry report the stored word's flag. Every other entry's answer is unchanged. |
| `RaptureAtkModule.IsUiVisible` | lib/FFXIVClientStructs/FFXIVClientStructs/FFXIV/Client/UI/RaptureAtkModule.cs:49-53 | The getter, which reads the unit manager's flags, is true iff bit 0x04 of the byte at the obsolete `Flags` offset is clear. |
| `RaptureAtkModule.IsUiVisibleOnlyReadsUiHidden` | lib/FFXIVClientStructs/FFXIVClientStructs/FFXIV/Client/UI/RaptureAtkModule.cs:51 | The answer does not change when the flag byte is rewritten with the same `UiHidden` bit. Writing any other byte does not change it either. |

## Left out

- The Roslyn syntax API, `HasModifier`, `GetNameWithTypeDeclarationList`, `GetContainingFileScopedNamespace` and the internals of `DiagnosticInfo.Create` are not modelled. The identifier, the qualified names, the namespace and the `partial` flag are inputs of `StructSyntax`. A diagnostic is its descriptor plus the struct identifier it is keyed to; its source location is not modelled.
- A null namespace is represented by the empty string. `IsNullOrWhiteSpace` treats the two alike, so rendering does not distinguish them. White space is the .NET set of white-space characters.
- The `IndentedStringBuilder` implementation is not part of this model. It is reduced to a line list plus an unbounded integer level. Turning levels into spaces, and any guard against decrementing below zero, are not modelled. A bare `AppendLine()` is an `AppendLine` of the empty text.
- `[MemberFunction]` signature strings, `[VirtualFunction(39)]` dispatch (`SetUiVisibility`), the `IsUiVisible` setter and `Instance()` are left out. They are foreign native calls resolved by a scanner and generator that are not part of this model.
- The sizes of `AtkModule`, `AgentModule`, `RaptureAtkUnitManager`, `Utf8String`, `GameObjectID` and `AtkTexture` are unknown here. Only fields of known width (a pointer, the flag byte, `int`s and whole `NamePlateInfo` records) are checked to end before the next field.
- The signature compiler, image scanner, address resolver cache and virtual dispatch resolver of the wider interop layer are not part of this model.
- Dalamud/Plugin/Services/IClientState.cs and Dalamud/Plugin/Internal/Profiles/ProfilePluginEntry.cs are left out. The first is an interface of events and getters; the second is a two-field holder.
- Concurrency, live memory and torn reads are left out. Memory is an immutable byte sequence, and the modelled code does not synchronize anything.
- NamePlateInfo.Sar: states the non-negative case and the sign fill. It does not state that the low bits of a negative word's shift equal the logical shift's, because that bit-vector fact with a variable shift amount was too costly for the solver. `IsPrefixTitle` itself is fully characterised.
- RaptureAtkModule.IsUiVisible: the getter reads `RaptureAtkUnitManager.Flags`, and the unit manager's layout is not part of this model. The flag byte's position (unit manager plus 0x9C80, the same byte as the obsolete `Flags` at 0x1B580) and its type `RaptureAtkModuleFlags` come from the comment and the `Obsolete` message on that field, not from a declaration. The contract holds for that placement.
- The element-address function `RaptureAtkModule.NamePlateInfoAddress` has no contract of its own. What it promises is stated by `NamePlateInfoStride`, `NamePlateInfosDisjoint` and `NamePlateInfoFits`.

Notes on the generator's behaviour:

- The nesting check looks only at enclosing type declarations. The walk stops at the first parent that is not a type declaration, and a `record struct` parent counts as a non-struct.
- The nesting diagnostic is keyed to the nested struct's identifier, not to the offending container.
- The hierarchy names carry their type parameter lists.
