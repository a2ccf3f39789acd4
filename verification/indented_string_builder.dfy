/** The indented text builder the generator writes into, reduced to its
    observable state: the lines appended so far, each with the indentation
    level that was current when it was appended, and the current level.
    Turning levels into leading spaces is not modelled. */
module IndentedStringBuilder {

  datatype Line = Line(indent: int, text: string)

  datatype Builder = Builder(lines: seq<Line>, indent: int)

  /** A fresh builder: no lines, level zero. */
  const Empty: Builder := Builder([], 0)

  /** Appends one line at the current level. `AppendLine()` with no text is
      `AppendLine(b, "")`. */
  function AppendLine(b: Builder, text: string): (r: Builder)
    ensures r.indent == b.indent
    ensures |r.lines| == |b.lines| + 1
    ensures r.lines[..|b.lines|] == b.lines
    ensures r.lines[|b.lines|] == Line(b.indent, text)
  {
    Builder(b.lines + [Line(b.indent, text)], b.indent)
  }

  /** Raises the level by one; no line is written. */
  function Indent(b: Builder): (r: Builder)
    ensures r.lines == b.lines && r.indent == b.indent + 1
  {
    b.(indent := b.indent + 1)
  }

  /** Lowers the level by one; no line is written. */
  function DecrementIndent(b: Builder): (r: Builder)
    ensures r.lines == b.lines && r.indent == b.indent - 1
  {
    b.(indent := b.indent - 1)
  }

  /** Number of lines whose whole text is `t`. */
  function Count(lines: seq<Line>, t: string): nat
  {
    if |lines| == 0 then 0
    else Count(lines[..|lines| - 1], t) + (if lines[|lines| - 1].text == t then 1 else 0)
  }

  /** Appending a line adds one to the count of its own text and leaves every
      other count alone. */
  lemma CountAppendLine(b: Builder, text: string, t: string)
    ensures Count(AppendLine(b, text).lines, t) == Count(b.lines, t) + (if text == t then 1 else 0)
  {
    var r := AppendLine(b, text);
    assert r.lines[..|r.lines| - 1] == b.lines;
  }
}
