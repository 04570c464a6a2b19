/**
 * Function, loop and conditional bodies: `body_ctx` and `else_ctx`
 * (src/pygen.cpp:143-191, include/pygen.hpp:52-128).
 *
 * The source hands each nested body to a callback that appends to a fresh
 * child context. Callbacks only ever append lines synchronously, so a body
 * is modelled here as the statement tree the callback would write.
 */
module Body {
  import opened Numerals
  import opened Strings
  import opened Context

  datatype Stmt =
    | Statement(text: string)
    | If(cond: string, body: seq<Stmt>, elifs: seq<Elif>, otherwise: Otherwise)
    | While(cond: string, body: seq<Stmt>)
    | ForRange(index: string, start: int, stop: int, body: seq<Stmt>)
    | ForEnum(index: string, item: string, iterable: string, body: seq<Stmt>)

  /** One `elif` link of a conditional chain. */
  datatype Elif = Elif(cond: string, body: seq<Stmt>)

  /** The end of a conditional chain: no `else`, or an `else` with its body. */
  datatype Otherwise = NoElse | Else(body: seq<Stmt>)

  function IfHeader(cond: string): string { "if " + cond + ":" }

  function ElifHeader(cond: string): string { "elif " + cond + ":" }

  const ElseHeader: string := "else:"

  function WhileHeader(cond: string): string { "while " + cond + ":" }

  /** `start` is the first value of the loop variable, `stop` the first value past the last. */
  function ForHeader(index: string, start: int, stop: int): string
  {
    "for " + index + " in range(" + IntToString(start) + ", " + IntToString(stop) + "):"
  }

  function ForEnumHeader(index: string, item: string, iterable: string): string
  {
    "for " + index + ", " + item + " in enumerate(" + iterable + "):"
  }

  // ---------------------------------------------------------------------------
  // The line model: what a statement list looks like, line by line.
  // ---------------------------------------------------------------------------

  function Lines(d: nat, ss: seq<Stmt>): seq<Line>
    decreases ss, 0
  {
    if ss == [] then [] else StmtLines(d, ss[0]) + Lines(d, ss[1..])
  }

  function StmtLines(d: nat, s: Stmt): seq<Line>
    decreases s, 0
  {
    match s
    case Statement(t) => [Line(d, t)]
    case If(c, b, elifs, otherwise) =>
      BlockLines(d, IfHeader(c), b) + ElifLines(d, elifs) + ElseLines(d, otherwise)
    case While(c, b) => BlockLines(d, WhileHeader(c), b)
    case ForRange(i, lo, hi, b) => BlockLines(d, ForHeader(i, lo, hi), b)
    case ForEnum(i, v, it, b) => BlockLines(d, ForEnumHeader(i, v, it), b)
  }

  /** A header at depth `d` with its body one level deeper right under it. */
  function BlockLines(d: nat, header: string, body: seq<Stmt>): seq<Line>
    decreases body, 1
  {
    [Line(d, header)] + Lines(d + 1, body)
  }

  function ElifLines(d: nat, elifs: seq<Elif>): seq<Line>
    decreases elifs, 1
  {
    if elifs == [] then []
    else BlockLines(d, ElifHeader(elifs[0].cond), elifs[0].body) + ElifLines(d, elifs[1..])
  }

  function ElseLines(d: nat, otherwise: Otherwise): seq<Line>
    decreases otherwise, 1
  {
    match otherwise
    case NoElse => []
    case Else(b) => BlockLines(d, ElseHeader, b)
  }

  // ---------------------------------------------------------------------------
  // The buffer model: the context operations of the source.
  // ---------------------------------------------------------------------------

  /** `statment(expr)`: one line at the context's own indent. */
  function WriteStatement(c: Ctx, expr: string): (r: Ctx)
    ensures r.indent == c.indent
    ensures r.code == c.code + Text([Line(c.indent, expr)])
  {
    WriteLine(c, expr)
  }

  /**
   * The protocol every block constructor follows: the header at the current
   * indent, a fresh child context at `indent + 1` that runs the body, then the
   * child's text appended to this context's buffer.
   */
  function Nested(c: Ctx, header: string, body: seq<Stmt>): (r: Ctx)
    ensures r.indent == c.indent
    ensures r.code == c.code + Text(BlockLines(c.indent, header, body))
    ensures r.code == c.code + Indent(c.indent) + header + "\n" + Text(Lines(c.indent + 1, body))
    decreases body, 1
  {
    var hl := [Line(c.indent, header)];
    var bl := Lines(c.indent + 1, body);
    var h := WriteLine(c, header);
    var child := Run(Ctx(c.indent + 1, ""), body);
    assert h.code == c.code + Text(hl);
    assert child.code == Text(bl) by {
      assert "" + Text(bl) == Text(bl);
    }
    assert Text(BlockLines(c.indent, header, body)) == Text(hl) + Text(bl) by {
      TextAppend(hl, bl);
    }
    AppendAssoc3(c.code, Text(hl), Text(bl));
    BlockText(c.code, c.indent, header, body);
    Ctx(c.indent, h.code + Generate(child))
  }

  /** A block's text: the indented header and a newline, then the body's text. */
  lemma {:induction false} BlockText(p: string, d: nat, header: string, body: seq<Stmt>)
    ensures p + Text(BlockLines(d, header, body)) == p + Indent(d) + header + "\n" + Text(Lines(d + 1, body))
  {
    var hl := [Line(d, header)];
    var bl := Lines(d + 1, body);
    TextAppend(hl, bl);
    assert Text(hl) == Indent(d) + header + "\n" by {
      assert hl[1..] == [];
      assert Text(hl) == Physical(hl[0]) + "\n" + "";
    }
    AppendAssoc(Indent(d), header, "\n", Text(bl));
    AppendAssoc5(p, Indent(d), header, "\n", Text(bl));
  }

  /**
   * `ifCtx`: `if <cond>:` at the current indent, the body right under it one
   * level deeper; the chain context returned keeps this indent and buffer.
   */
  function IfCtx(c: Ctx, cond: string, body: seq<Stmt>): (chain: Ctx)
    ensures chain.indent == c.indent
    ensures chain.code == c.code + Text(BlockLines(c.indent, IfHeader(cond), body))
    ensures chain.code == c.code + Indent(c.indent) + IfHeader(cond) + "\n" + Text(Lines(c.indent + 1, body))
    decreases body, 2
  {
    Nested(c, IfHeader(cond), body)
  }

  /** `elifCtx`: `elif <cond>:` right after the preceding link, at the chain's indent. */
  function ElifCtx(chain: Ctx, cond: string, body: seq<Stmt>): (r: Ctx)
    ensures r.indent == chain.indent
    ensures r.code == chain.code + Text(BlockLines(chain.indent, ElifHeader(cond), body))
    ensures r.code == chain.code + Indent(chain.indent) + ElifHeader(cond) + "\n" + Text(Lines(chain.indent + 1, body))
    decreases body, 2
  {
    Nested(chain, ElifHeader(cond), body)
  }

  /**
   * `elseCtx`, an empty stub in include/pygen.hpp with no definition in
   * src/pygen.cpp: `else:` at the chain's indent; the value returned is the
   * shared buffer. Nothing here
   * stops a caller from handing that value to `ElifCtx` again: the chain
   * ends with `else` because a statement tree's `Otherwise` holds at most
   * one `Else`, after all the `Elif`s.
   */
  function ElseCtx(chain: Ctx, body: seq<Stmt>): (r: Ctx)
    ensures r.indent == chain.indent
    ensures r.code == chain.code + Text(BlockLines(chain.indent, ElseHeader, body))
    ensures r.code == chain.code + Indent(chain.indent) + ElseHeader + "\n" + Text(Lines(chain.indent + 1, body))
    decreases body, 2
  {
    Nested(chain, ElseHeader, body)
  }

  /** `whileCtx`. */
  function WhileCtx(c: Ctx, cond: string, body: seq<Stmt>): (r: Ctx)
    ensures r.indent == c.indent
    ensures r.code == c.code + Indent(c.indent) + WhileHeader(cond) + "\n" + Text(Lines(c.indent + 1, body))
    decreases body, 2
  {
    Nested(c, WhileHeader(cond), body)
  }

  /** `forCtx`: `range(start, stop)`, bounds in that order. */
  function ForCtx(c: Ctx, index: string, start: int, stop: int, body: seq<Stmt>): (r: Ctx)
    ensures r.indent == c.indent
    ensures r.code == c.code + Indent(c.indent) + ForHeader(index, start, stop) + "\n" + Text(Lines(c.indent + 1, body))
    decreases body, 2
  {
    Nested(c, ForHeader(index, start, stop), body)
  }

  /** `forenumCtx`. */
  function ForEnumCtx(c: Ctx, index: string, item: string, iterable: string, body: seq<Stmt>): (r: Ctx)
    ensures r.indent == c.indent
    ensures r.code == c.code + Indent(c.indent) + ForEnumHeader(index, item, iterable) + "\n" + Text(Lines(c.indent + 1, body))
    decreases body, 2
  {
    Nested(c, ForEnumHeader(index, item, iterable), body)
  }

  /** A chain of `elifCtx` calls, each on the chain context the previous one returned. */
  function RunElifs(chain: Ctx, elifs: seq<Elif>): (r: Ctx)
    ensures r.indent == chain.indent
    ensures r.code == chain.code + Text(ElifLines(chain.indent, elifs))
    decreases elifs, 3
  {
    if elifs == [] then chain
    else
      var link := BlockLines(chain.indent, ElifHeader(elifs[0].cond), elifs[0].body);
      var rest := ElifLines(chain.indent, elifs[1..]);
      var next := ElifCtx(chain, elifs[0].cond, elifs[0].body);
      assert next.code == chain.code + Text(link);
      assert Text(ElifLines(chain.indent, elifs)) == Text(link) + Text(rest) by {
        TextAppend(link, rest);
      }
      AppendAssoc3(chain.code, Text(link), Text(rest));
      RunElifs(next, elifs[1..])
  }

  /** The optional `elseCtx` that ends a chain. */
  function RunElse(chain: Ctx, otherwise: Otherwise): (r: Ctx)
    ensures r.indent == chain.indent
    ensures r.code == chain.code + Text(ElseLines(chain.indent, otherwise))
    decreases otherwise, 3
  {
    match otherwise
    case NoElse => chain
    case Else(e) => ElseCtx(chain, e)
  }

  /** `ifCtx(…)` followed by its `elifCtx` links and an optional `elseCtx`. */
  function RunIf(c: Ctx, s: Stmt): (r: Ctx)
    requires s.If?
    ensures r.indent == c.indent
    ensures r.code == c.code + Text(StmtLines(c.indent, s))
    decreases s, 1
  {
    var If(cond, b, elifs, otherwise) := s;
    var chain := IfCtx(c, cond, b);
    var afterElifs := RunElifs(chain, elifs);
    var ifLines := BlockLines(c.indent, IfHeader(cond), b);
    var elifLines := ElifLines(c.indent, elifs);
    var elseLines := ElseLines(c.indent, otherwise);
    TextAppend3(ifLines, elifLines, elseLines);
    AppendAssoc(c.code, Text(ifLines), Text(elifLines), Text(elseLines));
    RunElse(afterElifs, otherwise)
  }

  /** One call on a body context. */
  function Exec(c: Ctx, s: Stmt): (r: Ctx)
    ensures r.indent == c.indent
    ensures r.code == c.code + Text(StmtLines(c.indent, s))
    decreases s, 2
  {
    match s
    case Statement(t) => WriteStatement(c, t)
    case If(_, _, _, _) => RunIf(c, s)
    case While(cond, b) => WhileCtx(c, cond, b)
    case ForRange(i, lo, hi, b) => ForCtx(c, i, lo, hi, b)
    case ForEnum(i, v, it, b) => ForEnumCtx(c, i, v, it, b)
  }

  /**
   * A callback's statements, in order, on one context: the buffer grows by
   * exactly the text of their lines at the context's depth, and the indent
   * does not change.
   */
  function Run(c: Ctx, ss: seq<Stmt>): (r: Ctx)
    ensures r.indent == c.indent
    ensures r.code == c.code + Text(Lines(c.indent, ss))
    decreases ss, 0
  {
    if ss == [] then
      assert c.code + Text([]) == c.code;
      c
    else
      var first, rest := StmtLines(c.indent, ss[0]), Lines(c.indent, ss[1..]);
      var next := Exec(c, ss[0]);
      assert next.code == c.code + Text(first);
      assert Text(Lines(c.indent, ss)) == Text(first) + Text(rest) by {
        TextAppend(first, rest);
      }
      AppendAssoc3(c.code, Text(first), Text(rest));
      Run(next, ss[1..])
  }

  // ---------------------------------------------------------------------------
  // Properties of the line model.
  // ---------------------------------------------------------------------------

  lemma {:induction false} LinesAppend(d: nat, a: seq<Stmt>, b: seq<Stmt>)
    ensures Lines(d, a + b) == Lines(d, a) + Lines(d, b)
  {
    if a == [] {
      assert a + b == b;
    } else {
      assert (a + b)[1..] == a[1..] + b;
      LinesAppend(d, a[1..], b);
    }
  }

  /**
   * Statements written one after another land in that order: running `a`
   * then `b` on a context is running `a + b`.
   */
  lemma {:induction false} RunAppend(c: Ctx, a: seq<Stmt>, b: seq<Stmt>)
    ensures Run(c, a + b) == Run(Run(c, a), b)
  {
    var la, lb := Lines(c.indent, a), Lines(c.indent, b);
    var ta, tb := Text(la), Text(lb);
    var r1 := Run(c, a);
    assert r1 == Ctx(c.indent, c.code + ta);
    assert Run(r1, b) == Ctx(c.indent, c.code + ta + tb);
    assert Text(Lines(c.indent, a + b)) == ta + tb by {
      LinesAppend(c.indent, a, b);
      TextAppend(la, lb);
    }
    AppendAssoc3(c.code, ta, tb);
    assert Run(c, a + b) == Ctx(c.indent, c.code + (ta + tb));
  }

  /** Every line is at depth `d` or deeper. */
  predicate AtLeast(ls: seq<Line>, d: nat)
  {
    forall i :: 0 <= i < |ls| ==> ls[i].depth >= d
  }

  lemma {:induction false} AtLeastAppend(a: seq<Line>, b: seq<Line>, d: nat)
    requires AtLeast(a, d) && AtLeast(b, d)
    ensures AtLeast(a + b, d)
  {
    forall i | 0 <= i < |a + b|
      ensures (a + b)[i].depth >= d
    {
      if i >= |a| {
        assert (a + b)[i] == b[i - |a|];
      }
    }
  }

  lemma {:induction false} LinesAtLeast(d: nat, ss: seq<Stmt>)
    ensures AtLeast(Lines(d, ss), d)
    decreases ss, 0
  {
    if ss != [] {
      StmtLinesAtLeast(d, ss[0]);
      LinesAtLeast(d, ss[1..]);
    }
  }

  lemma {:induction false} StmtLinesAtLeast(d: nat, s: Stmt)
    ensures AtLeast(StmtLines(d, s), d)
    decreases s, 0
  {
    match s
    case Statement(_) =>
    case If(c, b, elifs, otherwise) =>
      BlockLinesAtLeast(d, IfHeader(c), b);
      ElifLinesAtLeast(d, elifs);
      match otherwise {
        case NoElse =>
        case Else(e) => BlockLinesAtLeast(d, ElseHeader, e);
      }
    case While(c, b) => BlockLinesAtLeast(d, WhileHeader(c), b);
    case ForRange(i, lo, hi, b) => BlockLinesAtLeast(d, ForHeader(i, lo, hi), b);
    case ForEnum(i, v, it, b) => BlockLinesAtLeast(d, ForEnumHeader(i, v, it), b);
  }

  lemma {:induction false} BlockLinesAtLeast(d: nat, header: string, body: seq<Stmt>)
    ensures AtLeast(BlockLines(d, header, body), d)
    ensures AtLeast(BlockLines(d, header, body)[1..], d + 1)
    decreases body, 1
  {
    LinesAtLeast(d + 1, body);
    assert BlockLines(d, header, body)[1..] == Lines(d + 1, body);
  }

  lemma {:induction false} ElifLinesAtLeast(d: nat, elifs: seq<Elif>)
    ensures AtLeast(ElifLines(d, elifs), d)
    decreases elifs, 1
  {
    if elifs != [] {
      BlockLinesAtLeast(d, ElifHeader(elifs[0].cond), elifs[0].body);
      ElifLinesAtLeast(d, elifs[1..]);
    }
  }

  /**
   * Indentation: every line record a body at depth `d` produces starts with
   * `4 * d` spaces once indented, however many constructs precede it or
   * enclose it.
   */
  lemma {:induction false} IndentedAtDepth(d: nat, ss: seq<Stmt>)
    ensures forall i :: 0 <= i < |Lines(d, ss)| ==> Indent(d) <= Physical(Lines(d, ss)[i])
  {
    LinesAtLeast(d, ss);
    forall i | 0 <= i < |Lines(d, ss)|
      ensures Indent(d) <= Physical(Lines(d, ss)[i])
    {
      IndentPrefix(d, Lines(d, ss)[i].depth);
    }
  }

  /**
   * The same in the output text: split at its line breaks, the text of a body
   * at depth `d` has one physical line per line record, and each starts with
   * `4 * d` spaces. A statement, condition or docstring that holds a line
   * break of its own is written as one piece, so only its first physical line
   * is indented; hence the hypothesis.
   */
  lemma {:induction false} PhysicalLinesIndented(d: nat, ss: seq<Stmt>)
    requires forall i :: 0 <= i < |Lines(d, ss)| ==> '\n' !in Lines(d, ss)[i].text
    ensures var phys := SplitRef(Text(Lines(d, ss)), "\n");
            && |phys| == |Lines(d, ss)|
            && forall i :: 0 <= i < |phys| ==> Indent(d) <= phys[i]
  {
    var ls := Lines(d, ss);
    TextLines(ls);
    IndentedAtDepth(d, ss);
  }

  /** The same lines, `k` levels deeper. */
  function Shift(ls: seq<Line>, k: nat): seq<Line>
  {
    seq(|ls|, i requires 0 <= i < |ls| => Line(ls[i].depth + k, ls[i].text))
  }

  lemma {:induction false} ShiftAppend(a: seq<Line>, b: seq<Line>, k: nat)
    ensures Shift(a + b, k) == Shift(a, k) + Shift(b, k)
  {
    var l, r := Shift(a + b, k), Shift(a, k) + Shift(b, k);
    assert |l| == |r|;
    forall i | 0 <= i < |l|
      ensures l[i] == r[i]
    {
      if i < |a| {
        assert (a + b)[i] == a[i];
      } else {
        assert (a + b)[i] == b[i - |a|];
      }
    }
  }

  /**
   * Depth only adds indentation: a statement list rendered `k` levels deeper
   * gives the same lines, in the same order, each `k` levels deeper.
   */
  lemma {:induction false} LinesShift(d: nat, k: nat, ss: seq<Stmt>)
    ensures Lines(d + k, ss) == Shift(Lines(d, ss), k)
    decreases ss, 0
  {
    if ss != [] {
      StmtLinesShift(d, k, ss[0]);
      LinesShift(d, k, ss[1..]);
      ShiftAppend(StmtLines(d, ss[0]), Lines(d, ss[1..]), k);
    }
  }

  lemma {:induction false} StmtLinesShift(d: nat, k: nat, s: Stmt)
    ensures StmtLines(d + k, s) == Shift(StmtLines(d, s), k)
    decreases s, 0
  {
    match s
    case Statement(_) =>
    case If(c, b, elifs, otherwise) =>
      BlockLinesShift(d, k, IfHeader(c), b);
      ElifLinesShift(d, k, elifs);
      match otherwise {
        case NoElse =>
        case Else(e) => BlockLinesShift(d, k, ElseHeader, e);
      }
      ShiftAppend(BlockLines(d, IfHeader(c), b), ElifLines(d, elifs), k);
      ShiftAppend(BlockLines(d, IfHeader(c), b) + ElifLines(d, elifs), ElseLines(d, otherwise), k);
    case While(c, b) => BlockLinesShift(d, k, WhileHeader(c), b);
    case ForRange(i, lo, hi, b) => BlockLinesShift(d, k, ForHeader(i, lo, hi), b);
    case ForEnum(i, v, it, b) => BlockLinesShift(d, k, ForEnumHeader(i, v, it), b);
  }

  lemma {:induction false} BlockLinesShift(d: nat, k: nat, header: string, body: seq<Stmt>)
    ensures BlockLines(d + k, header, body) == Shift(BlockLines(d, header, body), k)
    decreases body, 1
  {
    LinesShift(d + 1, k, body);
    assert d + 1 + k == d + k + 1;
    ShiftAppend([Line(d, header)], Lines(d + 1, body), k);
  }

  lemma {:induction false} ElifLinesShift(d: nat, k: nat, elifs: seq<Elif>)
    ensures ElifLines(d + k, elifs) == Shift(ElifLines(d, elifs), k)
    decreases elifs, 1
  {
    if elifs != [] {
      BlockLinesShift(d, k, ElifHeader(elifs[0].cond), elifs[0].body);
      ElifLinesShift(d, k, elifs[1..]);
      ShiftAppend(BlockLines(d, ElifHeader(elifs[0].cond), elifs[0].body), ElifLines(d, elifs[1..]), k);
    }
  }
}
