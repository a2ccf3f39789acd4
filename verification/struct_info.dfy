/** The descriptor the interop source generator builds for a struct
    declaration, the validation that produces it, and the rendering of the
    nested `unsafe partial struct` wrappers that generated members are written
    into (Models/StructInfo.cs). */
module StructInfo {
  import opened Validation
  import opened IndentedStringBuilder

  // ---------------------------------------------------------------------------
  // Syntax and diagnostics
  // ---------------------------------------------------------------------------

  datatype DiagnosticDescriptor = StructMustBePartial | NestedStructMustBeContainedInStructs

  /** A diagnostic, located at the struct being generated for and carrying
      that struct's identifier as its message argument. */
  datatype DiagnosticInfo = DiagnosticInfo(descriptor: DiagnosticDescriptor, structIdentifier: string)

  /** A type declaration enclosing the struct: another struct, or any other
      type declaration (class, interface, record, record struct). */
  datatype TypeDecl = StructDecl(name: string) | OtherTypeDecl(name: string)

  /** A struct declaration as the generator sees it.
      - `identifier`: the bare identifier token;
      - `qualifiedName`: the name with its type parameter list;
      - `namespace`: the containing file-scoped namespace ("" when there is none);
      - `isPartial`: whether the `partial` modifier is present;
      - `ancestors`: the chain of enclosing type declarations, innermost first,
        up to the first parent that is not a type declaration (a namespace or
        the compilation unit). The names inside `ancestors` are those
        enclosing declarations' names with their type parameter lists. */
  datatype StructSyntax = StructSyntax(
    identifier: string,
    qualifiedName: string,
    namespace: string,
    isPartial: bool,
    ancestors: seq<TypeDecl>)

  /** The descriptor: `hierarchy` lists the enclosing structs outermost first. */
  datatype StructInfo = StructInfo(name: string, namespace: string, hierarchy: seq<string>)

  predicate AllStructs(chain: seq<TypeDecl>) {
    forall i :: 0 <= i < |chain| ==> chain[i].StructDecl?
  }

  function PartialDiagnostic(s: StructSyntax): DiagnosticInfo {
    DiagnosticInfo(StructMustBePartial, s.identifier)
  }

  function NestingDiagnostic(s: StructSyntax): DiagnosticInfo {
    DiagnosticInfo(NestedStructMustBeContainedInStructs, s.identifier)
  }

  // ---------------------------------------------------------------------------
  // Validation
  // ---------------------------------------------------------------------------

  function Reverse<T>(s: seq<T>): (r: seq<T>)
    ensures |r| == |s|
    ensures forall i :: 0 <= i < |s| ==> r[i] == s[|s| - 1 - i]
  {
    if |s| == 0 then [] else Reverse(s[1..]) + [s[0]]
  }

  /** The walk up the parent chain: each enclosing struct's name is added at
      the end of `acc`; the first enclosing type declaration that is not a
      struct stops the walk with a nesting diagnostic. */
  function WalkHierarchy(s: StructSyntax, chain: seq<TypeDecl>, acc: seq<string>): (r: Validation<DiagnosticInfo, seq<string>>)
    decreases |chain|
    ensures r.Valid()
    ensures r.Success? <==> AllStructs(chain)
    ensures r.Success? ==> |r.value| == |acc| + |chain| && r.value[..|acc|] == acc
    ensures r.Success? ==> forall i :: 0 <= i < |chain| ==> r.value[|acc| + i] == chain[i].name
    ensures r.Fail? ==> r.errors == [NestingDiagnostic(s)]
  {
    if |chain| == 0 then Success(acc)
    else match chain[0]
      case StructDecl(n) =>
        var r := WalkHierarchy(s, chain[1..], acc + [n]);
        assert forall i :: 1 <= i < |chain| ==> chain[1..][i - 1] == chain[i];
        r
      case OtherTypeDecl(_) => FailWith(NestingDiagnostic(s))
  }

  /** The enclosing struct names, innermost first, or the nesting diagnostic. */
  function GetHierarchy(s: StructSyntax): (r: Validation<DiagnosticInfo, seq<string>>)
    ensures r.Valid()
    ensures r.Success? <==> AllStructs(s.ancestors)
    ensures r.Success? ==> |r.value| == |s.ancestors|
    ensures r.Success? ==> forall i :: 0 <= i < |s.ancestors| ==> r.value[i] == s.ancestors[i].name
    ensures r.Fail? ==> r.errors == [NestingDiagnostic(s)]
  {
    WalkHierarchy(s, s.ancestors, [])
  }

  /** The `partial` check on the declaration itself. */
  function CheckPartial(s: StructSyntax): (r: Validation<DiagnosticInfo, StructSyntax>)
    ensures r.Valid()
    ensures r.Success? <==> s.isPartial
    ensures r.Success? ==> r.value == s
    ensures r.Fail? ==> r.errors == [PartialDiagnostic(s)]
  {
    if s.isPartial then Success(s) else FailWith(PartialDiagnostic(s))
  }

  function Build(syntax: StructSyntax, hierarchy: seq<string>): StructInfo {
    StructInfo(syntax.qualifiedName, syntax.namespace, Reverse(hierarchy))
  }

  /** Builds the descriptor of a struct declaration. Both checks always run,
      and every diagnostic they produce is reported, the `partial` one first. */
  function GetFromSyntax(s: StructSyntax): (r: Validation<DiagnosticInfo, StructInfo>)
    ensures r.Valid()
    ensures r.Success? <==> s.isPartial && AllStructs(s.ancestors)
    ensures ErrorsOf(r) ==
              (if s.isPartial then [] else [PartialDiagnostic(s)])
              + (if AllStructs(s.ancestors) then [] else [NestingDiagnostic(s)])
    ensures r.Success? ==> r.value.name == s.qualifiedName && r.value.namespace == s.namespace
    ensures r.Success? ==> |r.value.hierarchy| == |s.ancestors|
    ensures r.Success? ==>
              forall i :: 0 <= i < |s.ancestors| ==>
                r.value.hierarchy[i] == s.ancestors[|s.ancestors| - 1 - i].name
  {
    Apply(CheckPartial(s), GetHierarchy(s), Build)
  }

  /** Enclosing declarations above the first non-struct one play no part in
      the outcome: the walk never reaches them. */
  lemma HierarchyIgnoresAncestorsAboveNonStruct(s: StructSyntax, k: nat)
    requires k < |s.ancestors| && s.ancestors[k].OtherTypeDecl?
    ensures GetHierarchy(s) == GetHierarchy(s.(ancestors := s.ancestors[..k + 1]))
    ensures GetHierarchy(s) == Fail([NestingDiagnostic(s)])
  {
    assert !AllStructs(s.ancestors[..k + 1]) by {
      assert s.ancestors[..k + 1][k] == s.ancestors[k];
    }
  }

  /** The pointer type of the struct followed by the separator that starts
      the next parameter, for generated `this`-taking signatures. */
  function GetThisPtrTypeString(info: StructInfo): (r: string)
    ensures |r| == |info.name| + 3
    ensures r[..|info.name|] == info.name
    ensures r[|info.name|..] == "*, "
  {
    info.name + "*, "
  }

  /** Different struct names give different pointer type strings. */
  lemma ThisPtrTypeStringInjective(a: StructInfo, b: StructInfo)
    requires GetThisPtrTypeString(a) == GetThisPtrTypeString(b)
    ensures a.name == b.name
  {
    var ra, rb := GetThisPtrTypeString(a), GetThisPtrTypeString(b);
    assert |a.name| == |b.name|;
    assert a.name == ra[..|a.name|] == rb[..|b.name|] == b.name;
  }

  // ---------------------------------------------------------------------------
  // Rendering
  // ---------------------------------------------------------------------------

  const AutoGeneratedHeader: string := "// <auto-generated/>"
  const OpenerPrefix: string := "unsafe partial struct "
  const NamespacePrefix: string := "namespace "

  /** The characters .NET classifies as white space: the Unicode space,
      line and paragraph separators plus the control characters U+0009 to
      U+000D and U+0085. */
  predicate IsWhiteSpace(c: char) {
    || ('\U{0009}' <= c <= '\U{000D}')
    || c == '\U{0020}' || c == '\U{0085}' || c == '\U{00A0}' || c == '\U{1680}'
    || ('\U{2000}' <= c <= '\U{200A}')
    || c == '\U{2028}' || c == '\U{2029}' || c == '\U{202F}' || c == '\U{205F}' || c == '\U{3000}'
  }

  /** `string.IsNullOrWhiteSpace`; a namespace of "" stands for a null one.
      The empty string qualifies; one that starts or ends with a character
      that is not white space does not. */
  function IsNullOrWhiteSpace(s: string): (r: bool)
    ensures |s| == 0 ==> r
    ensures |s| > 0 && !IsWhiteSpace(s[0]) ==> !r
    ensures |s| > 0 && !IsWhiteSpace(s[|s| - 1]) ==> !r
  {
    forall i :: 0 <= i < |s| ==> IsWhiteSpace(s[i])
  }

  /** Read character by character: a non-empty string qualifies iff its
      first character is white space and the rest qualifies. */
  lemma NullOrWhiteSpaceByFirst(s: string)
    requires |s| > 0
    ensures IsNullOrWhiteSpace(s) <==> IsWhiteSpace(s[0]) && IsNullOrWhiteSpace(s[1..])
  {
    if IsWhiteSpace(s[0]) && IsNullOrWhiteSpace(s[1..]) {
      forall i | 0 <= i < |s| ensures IsWhiteSpace(s[i]) {
        if i > 0 {
          assert s[i] == s[1..][i - 1];
        }
      }
    }
  }

  function StructOpener(name: string): string {
    OpenerPrefix + name
  }

  function NamespaceLine(ns: string): string {
    NamespacePrefix + ns + ";"
  }

  predicate IsNamespaceLine(t: string) {
    |t| >= |NamespacePrefix| && t[..|NamespacePrefix|] == NamespacePrefix
  }

  function HeaderLength(ns: string): nat {
    if IsNullOrWhiteSpace(ns) then 2 else 4
  }

  lemma OpenerIsNotNamespaceLine(name: string)
    ensures !IsNamespaceLine(StructOpener(name))
  {
    var t := StructOpener(name);
    assert t[0] == 'u';
    assert NamespacePrefix[0] == 'n';
  }

  /** The auto-generated marker, the namespace declaration when there is a
      namespace, and a blank line. */
  function RenderHeader(ns: string, b: Builder): (r: Builder)
    ensures r.indent == b.indent
    ensures |r.lines| == |b.lines| + HeaderLength(ns)
    ensures r.lines[..|b.lines|] == b.lines
    ensures r.lines[|b.lines|] == Line(b.indent, AutoGeneratedHeader)
    ensures r.lines[|r.lines| - 1] == Line(b.indent, "")
    ensures !IsNullOrWhiteSpace(ns) ==>
              r.lines[|b.lines| + 1] == Line(b.indent, "")
              && r.lines[|b.lines| + 2] == Line(b.indent, NamespaceLine(ns))
    ensures forall k :: |b.lines| <= k < |r.lines| ==>
              (IsNamespaceLine(r.lines[k].text) <==> !IsNullOrWhiteSpace(ns) && k == |b.lines| + 2)
  {
    var b1 := AppendLine(b, AutoGeneratedHeader);
    var b2 := if !IsNullOrWhiteSpace(ns) then AppendLine(AppendLine(b1, ""), NamespaceLine(ns)) else b1;
    var r := AppendLine(b2, "");
    assert AutoGeneratedHeader[0] == '/';
    assert !IsNamespaceLine(AutoGeneratedHeader) by {
      assert AutoGeneratedHeader[..|NamespacePrefix|][0] == '/';
    }
    assert IsNamespaceLine(NamespaceLine(ns)) by {
      assert NamespaceLine(ns)[..|NamespacePrefix|] == NamespacePrefix;
    }
    r
  }

  /** `unsafe partial struct <name>`, an opening brace, one level deeper. */
  function OpenStruct(name: string, b: Builder): (r: Builder)
    ensures r.indent == b.indent + 1
    ensures r.lines == b.lines + [Line(b.indent, StructOpener(name)), Line(b.indent, "{")]
  {
    Indent(AppendLine(AppendLine(b, StructOpener(name)), "{"))
  }

  /** `lines` hold, from index `at`, the opener of `name` and its brace, both
      at level `depth`. */
  predicate OpensAt(lines: seq<Line>, at: int, depth: int, name: string) {
    0 <= at && at + 1 < |lines|
    && lines[at] == Line(depth, StructOpener(name))
    && lines[at + 1] == Line(depth, "{")
  }

  lemma OpensAtExtend(lines: seq<Line>, more: seq<Line>, at: int, depth: int, name: string)
    requires OpensAt(lines, at, depth, name)
    ensures OpensAt(lines + more, at, depth, name)
  {
  }

  /** One opener per name, in order, each one level deeper than the last. */
  function OpenAll(names: seq<string>, b: Builder): (r: Builder)
    decreases |names|
    ensures r.indent == b.indent + |names|
    ensures |r.lines| == |b.lines| + 2 * |names|
    ensures r.lines[..|b.lines|] == b.lines
    ensures forall i :: 0 <= i < |names| ==> OpensAt(r.lines, |b.lines| + 2 * i, b.indent + i, names[i])
  {
    if |names| == 0 then b
    else
      var b1 := OpenStruct(names[0], b);
      var r := OpenAll(names[1..], b1);
      assert forall i :: 1 <= i < |names| ==> names[1..][i - 1] == names[i];
      assert r.lines[..|b1.lines|][..|b.lines|] == b.lines;
      assert OpensAt(r.lines, |b.lines|, b.indent, names[0]) by {
        assert r.lines[|b.lines|] == r.lines[..|b1.lines|][|b.lines|];
        assert r.lines[|b.lines| + 1] == r.lines[..|b1.lines|][|b.lines| + 1];
      }
      r
  }

  /** Writes the header and opens one wrapper per enclosing struct, outermost
      first, then the wrapper of the struct itself (what is written where is
      stated by `RenderStartOpeners` and `NamespaceLineIffNamespace`). */
  function RenderStart(info: StructInfo, b: Builder): (r: Builder)
    ensures r.indent == b.indent + |info.hierarchy| + 1
    ensures |r.lines| == |b.lines| + HeaderLength(info.namespace) + 2 * (|info.hierarchy| + 1)
    ensures forall k :: 0 <= k < |b.lines| ==> r.lines[k] == b.lines[k]
    ensures r.lines[|b.lines|] == Line(b.indent, AutoGeneratedHeader)
  {
    var h := RenderHeader(info.namespace, b);
    var o := OpenAll(info.hierarchy, h);
    var r := OpenStruct(info.name, o);
    assert forall k :: 0 <= k < |o.lines| ==> r.lines[k] == o.lines[k];
    assert forall k :: 0 <= k < |h.lines| ==> o.lines[k] == o.lines[..|h.lines|][k] == h.lines[k];
    assert forall k :: 0 <= k < |b.lines| ==> h.lines[k] == h.lines[..|b.lines|][k] == b.lines[k];
    r
  }

  /** After the header, the start writes the opener of the `j`-th enclosing
      struct (outermost first) and its brace at depth `j`, and finally the
      struct's own opener at depth `|hierarchy|`. */
  lemma RenderStartOpeners(info: StructInfo, b: Builder, j: nat)
    requires j <= |info.hierarchy|
    ensures OpensAt(RenderStart(info, b).lines, |b.lines| + HeaderLength(info.namespace) + 2 * j, b.indent + j,
                    if j < |info.hierarchy| then info.hierarchy[j] else info.name)
  {
    var h := RenderHeader(info.namespace, b);
    var o := OpenAll(info.hierarchy, h);
    var r := OpenStruct(info.name, o);
    var last := [Line(o.indent, StructOpener(info.name)), Line(o.indent, "{")];
    assert |h.lines| == |b.lines| + HeaderLength(info.namespace) && h.indent == b.indent;
    assert r.lines == o.lines + last;
    if j < |info.hierarchy| {
      assert OpensAt(o.lines, |h.lines| + 2 * j, h.indent + j, info.hierarchy[j]);
      OpensAtExtend(o.lines, last, |h.lines| + 2 * j, h.indent + j, info.hierarchy[j]);
    }
  }

  /** The namespace line, when there is one, is the third line written. */
  lemma RenderStartNamespaceLine(info: StructInfo, b: Builder)
    requires !IsNullOrWhiteSpace(info.namespace)
    ensures RenderStart(info, b).lines[|b.lines| + 2] == Line(b.indent, NamespaceLine(info.namespace))
  {
    var h := RenderHeader(info.namespace, b);
    var o := OpenAll(info.hierarchy, h);
    assert o.lines[|b.lines| + 2] == o.lines[..|h.lines|][|b.lines| + 2];
  }

  lemma {:induction false} OpenAllWritesNoNamespaceLine(names: seq<string>, b: Builder)
    ensures forall k :: |b.lines| <= k < |OpenAll(names, b).lines| ==>
              !IsNamespaceLine(OpenAll(names, b).lines[k].text)
    decreases |names|
  {
    if |names| > 0 {
      var b1 := OpenStruct(names[0], b);
      OpenerIsNotNamespaceLine(names[0]);
      OpenAllWritesNoNamespaceLine(names[1..], b1);
    }
  }

  /** The start of the wrappers writes a namespace declaration exactly when
      the namespace is neither null nor white space, and then only as its
      third line. */
  lemma NamespaceLineIffNamespace(info: StructInfo, b: Builder)
    ensures var r := RenderStart(info, b);
            forall k :: |b.lines| <= k < |r.lines| ==>
              (IsNamespaceLine(r.lines[k].text) <==>
                 !IsNullOrWhiteSpace(info.namespace) && k == |b.lines| + 2)
  {
    var h := RenderHeader(info.namespace, b);
    var o := OpenAll(info.hierarchy, h);
    var r := RenderStart(info, b);
    OpenAllWritesNoNamespaceLine(info.hierarchy, h);
    OpenerIsNotNamespaceLine(info.name);
    forall k | |b.lines| <= k < |r.lines|
      ensures IsNamespaceLine(r.lines[k].text) <==> !IsNullOrWhiteSpace(info.namespace) && k == |b.lines| + 2
    {
      if k < |h.lines| {
        assert r.lines[k] == o.lines[..|h.lines|][k] == h.lines[k];
      } else if k < |o.lines| {
        assert r.lines[k] == o.lines[k];
      }
    }
  }

  /** One level up, then a closing brace. */
  function CloseStruct(b: Builder): (r: Builder)
    ensures r.indent == b.indent - 1
    ensures r.lines == b.lines + [Line(b.indent - 1, "}")]
  {
    AppendLine(DecrementIndent(b), "}")
  }

  /** One closer per name; the names themselves are not written. */
  function CloseAll(names: seq<string>, b: Builder): (r: Builder)
    decreases |names|
    ensures r.indent == b.indent - |names|
    ensures |r.lines| == |b.lines| + |names|
    ensures r.lines[..|b.lines|] == b.lines
    ensures forall k :: |b.lines| <= k < |r.lines| ==>
              r.lines[k] == Line(b.indent - 1 - (k - |b.lines|), "}")
  {
    if |names| == 0 then b
    else
      var b1 := CloseStruct(b);
      var r := CloseAll(names[1..], b1);
      assert r.lines[..|b1.lines|][..|b.lines|] == b.lines;
      assert r.lines[|b.lines|] == r.lines[..|b1.lines|][|b.lines|];
      r
  }

  /** Closes the struct's own wrapper, then one wrapper per enclosing struct. */
  function RenderEnd(info: StructInfo, b: Builder): (r: Builder)
    ensures r.indent == b.indent - |info.hierarchy| - 1
    ensures |r.lines| == |b.lines| + |info.hierarchy| + 1
    ensures r.lines[..|b.lines|] == b.lines
    ensures forall k :: |b.lines| <= k < |r.lines| ==>
              r.lines[k] == Line(b.indent - 1 - (k - |b.lines|), "}")
  {
    var b1 := CloseStruct(b);
    var r := CloseAll(info.hierarchy, b1);
    assert r.lines[..|b1.lines|][..|b.lines|] == b.lines;
    assert r.lines[|b.lines|] == r.lines[..|b1.lines|][|b.lines|];
    r
  }

  // ---------------------------------------------------------------------------
  // Balance of the rendered wrappers
  // ---------------------------------------------------------------------------

  lemma HeaderCounts(ns: string, b: Builder, t: string)
    requires t == "{" || t == "}"
    ensures Count(RenderHeader(ns, b).lines, t) == Count(b.lines, t)
  {
    var b1 := AppendLine(b, AutoGeneratedHeader);
    CountAppendLine(b, AutoGeneratedHeader, t);
    if IsNullOrWhiteSpace(ns) {
      CountAppendLine(b1, "", t);
    } else {
      var b2 := AppendLine(b1, "");
      var b3 := AppendLine(b2, NamespaceLine(ns));
      CountAppendLine(b1, "", t);
      CountAppendLine(b2, NamespaceLine(ns), t);
      CountAppendLine(b3, "", t);
    }
  }

  lemma OpenStructCounts(name: string, b: Builder)
    ensures Count(OpenStruct(name, b).lines, "{") == Count(b.lines, "{") + 1
    ensures Count(OpenStruct(name, b).lines, "}") == Count(b.lines, "}")
  {
    var b1 := AppendLine(b, StructOpener(name));
    assert StructOpener(name)[0] == 'u';
    CountAppendLine(b, StructOpener(name), "{");
    CountAppendLine(b, StructOpener(name), "}");
    CountAppendLine(b1, "{", "{");
    CountAppendLine(b1, "{", "}");
  }

  lemma {:induction false} OpenAllCounts(names: seq<string>, b: Builder)
    ensures Count(OpenAll(names, b).lines, "{") == Count(b.lines, "{") + |names|
    ensures Count(OpenAll(names, b).lines, "}") == Count(b.lines, "}")
    decreases |names|
  {
    if |names| > 0 {
      OpenStructCounts(names[0], b);
      OpenAllCounts(names[1..], OpenStruct(names[0], b));
    }
  }

  /** The start of the wrappers writes `|hierarchy| + 1` opening braces and no
      closing one. */
  lemma RenderStartCounts(info: StructInfo, b: Builder)
    ensures Count(RenderStart(info, b).lines, "{") == Count(b.lines, "{") + |info.hierarchy| + 1
    ensures Count(RenderStart(info, b).lines, "}") == Count(b.lines, "}")
  {
    var h := RenderHeader(info.namespace, b);
    HeaderCounts(info.namespace, b, "{");
    HeaderCounts(info.namespace, b, "}");
    OpenAllCounts(info.hierarchy, h);
    OpenStructCounts(info.name, OpenAll(info.hierarchy, h));
  }

  lemma CloseStructCounts(b: Builder)
    ensures Count(CloseStruct(b).lines, "}") == Count(b.lines, "}") + 1
    ensures Count(CloseStruct(b).lines, "{") == Count(b.lines, "{")
  {
    CountAppendLine(DecrementIndent(b), "}", "}");
    CountAppendLine(DecrementIndent(b), "}", "{");
  }

  lemma {:induction false} CloseAllCounts(names: seq<string>, b: Builder)
    ensures Count(CloseAll(names, b).lines, "}") == Count(b.lines, "}") + |names|
    ensures Count(CloseAll(names, b).lines, "{") == Count(b.lines, "{")
    decreases |names|
  {
    if |names| > 0 {
      CloseStructCounts(b);
      CloseAllCounts(names[1..], CloseStruct(b));
    }
  }

  /** The end of the wrappers writes `|hierarchy| + 1` closing braces and no
      opening one. */
  lemma RenderEndCounts(info: StructInfo, b: Builder)
    ensures Count(RenderEnd(info, b).lines, "}") == Count(b.lines, "}") + |info.hierarchy| + 1
    ensures Count(RenderEnd(info, b).lines, "{") == Count(b.lines, "{")
  {
    CloseStructCounts(b);
    CloseAllCounts(info.hierarchy, CloseStruct(b));
  }

  /** Rendering the start and then the end of a descriptor's wrappers leaves
      the builder at the level it started from and adds as many closing braces
      as opening ones, `|hierarchy| + 1` of each. */
  lemma RenderStartEndBalanced(info: StructInfo, b: Builder)
    ensures RenderEnd(info, RenderStart(info, b)).indent == b.indent
    ensures Count(RenderEnd(info, RenderStart(info, b)).lines, "{") == Count(b.lines, "{") + |info.hierarchy| + 1
    ensures Count(RenderEnd(info, RenderStart(info, b)).lines, "}") == Count(b.lines, "}") + |info.hierarchy| + 1
  {
    var s := RenderStart(info, b);
    RenderStartCounts(info, b);
    RenderEndCounts(info, s);
  }

  /** The brace opened at depth `j` (0 for the outermost wrapper) is closed at
      the same level, by the closer written `|hierarchy| - j`-th: closers come
      in the reverse order of the openers. */
  lemma RenderBracesPair(info: StructInfo, b: Builder, j: nat)
    requires j <= |info.hierarchy|
    ensures var s := RenderStart(info, b);
            var e := RenderEnd(info, s);
            var o := |b.lines| + HeaderLength(info.namespace);
            && e.lines[o + 2 * j + 1] == Line(b.indent + j, "{")
            && e.lines[|s.lines| + |info.hierarchy| - j] == Line(b.indent + j, "}")
  {
    var s := RenderStart(info, b);
    var e := RenderEnd(info, s);
    var o := |b.lines| + HeaderLength(info.namespace);
    RenderStartOpeners(info, b, j);
    assert e.lines[o + 2 * j + 1] == e.lines[..|s.lines|][o + 2 * j + 1];
  }
}
