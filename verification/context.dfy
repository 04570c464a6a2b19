/**
 * The indentation-aware buffer every context writes into (`Context`,
 * include/pygen.hpp:27-46), and the line model the rest of the project states
 * its contracts in.
 */
module Context {
  import opened Strings

  /**
   * A context: its indent, fixed when it is built, and the text it has
   * accumulated so far. A chained `if`/`elif` context shares its parent's
   * buffer; here that is the same `Ctx` value threaded on.
   */
  datatype Ctx = Ctx(indent: nat, code: string)

  /** One physical output line: its nesting depth and its text without indentation. */
  datatype Line = Line(depth: nat, text: string)

  /** The leading whitespace of a line at `depth`: four spaces per level. */
  function Indent(depth: nat): (r: string)
    ensures |r| == 4 * depth
    ensures forall i :: 0 <= i < |r| ==> r[i] == ' '
  {
    if depth == 0 then "" else "    " + Indent(depth - 1)
  }

  /** A shallower indentation is a prefix of a deeper one. */
  lemma {:induction false} IndentPrefix(d: nat, e: nat)
    requires d <= e
    ensures Indent(d) <= Indent(e)
  {
    if d > 0 {
      IndentPrefix(d - 1, e - 1);
    }
  }

  /** `writeLine`: the line, indented to the context's depth, appended to its buffer. */
  function WriteLine(c: Ctx, line: string): (r: Ctx)
    ensures r.indent == c.indent
    ensures r.code == c.code + Text([Line(c.indent, line)])
  {
    Ctx(c.indent, c.code + Indent(c.indent) + line + "\n")
  }

  /**
   * What one `writeLine` adds, character by character: exactly `4 * indent`
   * spaces, then `line` verbatim, then one newline; everything before is
   * untouched.
   */
  lemma {:induction false} WriteLineExact(c: Ctx, line: string)
    ensures var r := WriteLine(c, line);
            && |r.code| == |c.code| + 4 * c.indent + |line| + 1
            && r.code[..|c.code|] == c.code
            && (forall k :: |c.code| <= k < |c.code| + 4 * c.indent ==> r.code[k] == ' ')
            && r.code[|c.code| + 4 * c.indent..|r.code| - 1] == line
            && r.code[|r.code| - 1] == '\n'
  {
    var r := WriteLine(c, line);
    assert r.code == c.code + Indent(c.indent) + line + "\n";
    forall k | |c.code| <= k < |c.code| + 4 * c.indent
      ensures r.code[k] == ' '
    {
      assert r.code[k] == Indent(c.indent)[k - |c.code|];
    }
  }

  /** `generate()` of a body or chain context: the accumulated text, unchanged. */
  function Generate(c: Ctx): string
  {
    c.code
  }

  /** A line with its indentation. */
  function Physical(l: Line): string
  {
    Indent(l.depth) + l.text
  }

  /** The text of a list of lines: each indented and followed by a newline. */
  function Text(ls: seq<Line>): string
  {
    if ls == [] then "" else Physical(ls[0]) + "\n" + Text(ls[1..])
  }

  /** A string without a line break holds no occurrence of "\n". */
  lemma {:induction false} NoBreak(s: string)
    requires '\n' !in s
    ensures !Contains(s, "\n")
  {
    forall k: nat | k <= |s|
      ensures !OccursAt(s, "\n", k)
    {
      if k + 1 <= |s| {
        assert s[k..k + 1][0] == s[k];
      }
    }
  }

  /**
   * The physical lines of a text: split at its line breaks, it gives one
   * indented line per line record, in order, provided no record's text holds
   * a line break of its own.
   */
  lemma {:induction false} TextLines(ls: seq<Line>)
    requires forall i :: 0 <= i < |ls| ==> '\n' !in ls[i].text
    ensures SplitRef(Text(ls), "\n") == seq(|ls|, i requires 0 <= i < |ls| => Physical(ls[i]))
  {
    if ls != [] {
      var p := Physical(ls[0]);
      assert '\n' !in p by {
        assert '\n' !in Indent(ls[0].depth);
      }
      NoBreak(p);
      SplitRefAfter(p, "\n", Text(ls[1..]));
      TextLines(ls[1..]);
    }
  }

  lemma {:induction false} TextAppend(a: seq<Line>, b: seq<Line>)
    ensures Text(a + b) == Text(a) + Text(b)
  {
    if a != [] {
      assert (a + b)[1..] == a[1..] + b;
      TextAppend(a[1..], b);
    } else {
      assert a + b == b;
    }
  }

  lemma {:induction false} TextAppend3(a: seq<Line>, b: seq<Line>, e: seq<Line>)
    ensures Text(a + b + e) == Text(a) + Text(b) + Text(e)
  {
    TextAppend(a, b);
    TextAppend(a + b, e);
  }

  lemma {:induction false} TextAppend4(a: seq<Line>, b: seq<Line>, c: seq<Line>, e: seq<Line>)
    ensures Text(a + b + c + e) == Text(a) + (Text(b) + Text(c) + Text(e))
  {
    assert a + b + c + e == a + (b + c + e);
    TextAppend(a, b + c + e);
    TextAppend3(b, c, e);
  }

  /**
   * `writeLine` as include/pygen.hpp:37-43 writes it: the output goes into an
   * `ostringstream` built from a copy of `code`, so the context's text never
   * changes.
   */
  function WriteLineAsWritten(c: Ctx, line: string): Ctx
  {
    // `std::ostringstream oss(code)` opens its copy with the write position at
    // 0: the copy's first characters are overwritten with `Indent(c.indent) +
    // line + "\n"`, and the copy is then dropped.
    c
  }

  /** As written, every line is lost: the buffer differs from the intended one after any write. */
  lemma {:induction false} WriteLineAsWrittenLosesLines(c: Ctx, line: string)
    ensures WriteLineAsWritten(c, line).code == c.code
    ensures WriteLineAsWritten(c, line).code != WriteLine(c, line).code
  {
  }
}
