/** `func_ctx` (src/pygen.cpp:125-141): one function definition. */
module Func {
  import opened Context
  import opened Values
  import opened Body

  function DefHeader(name: string, params: seq<PyVal>, rets: seq<PyVal>): string
  {
    "def " + name + "(" + ParseParams(params) + ") -> " + GetRetsType(rets) + ":"
  }

  function DocLine(comment: string): string
  {
    "\"\"\"" + comment + "\"\"\""
  }

  function ReturnLine(rets: seq<PyVal>): string
  {
    "return " + GetRets(rets)
  }

  /** The docstring line, present only for a non-empty comment. */
  function DocLines(d: nat, comment: string): seq<Line>
  {
    if comment != "" then [Line(d, DocLine(comment))] else []
  }

  /**
   * The lines of a function definition: the `def` line at `indent`, then at
   * `indent + 1` the docstring, the body and the synthesized `return`.
   */
  function FuncLines(name: string, params: seq<PyVal>, rets: seq<PyVal>, comment: string,
                     indent: nat, body: seq<Stmt>): seq<Line>
  {
    [Line(indent, DefHeader(name, params, rets))]
    + DocLines(indent + 1, comment)
    + Lines(indent + 1, body)
    + [Line(indent + 1, ReturnLine(rets))]
  }

  /**
   * The text `func_ctx` accumulates: the `def` line written on the function's
   * own context, then the generated text of a body context one level deeper
   * that received the docstring, the callback's statements and the `return`.
   */
  function FuncCtx(name: string, params: seq<PyVal>, rets: seq<PyVal>, comment: string,
                   indent: nat, body: seq<Stmt>): (code: string)
    ensures code == Text(FuncLines(name, params, rets, comment, indent, body))
  {
    var head := WriteLine(Ctx(indent, ""), DefHeader(name, params, rets));
    var b0 := Ctx(indent + 1, "");
    var b1 := if comment != "" then WriteLine(b0, DocLine(comment)) else b0;
    var b2 := Run(b1, body);
    var b3 := WriteLine(b2, ReturnLine(rets));
    var defLine := [Line(indent, DefHeader(name, params, rets))];
    var doc := DocLines(indent + 1, comment);
    var bodyLines := Lines(indent + 1, body);
    var retLine := [Line(indent + 1, ReturnLine(rets))];
    assert head.code == Text(defLine);
    assert b1.code == Text(doc);
    assert b3.code == Text(doc) + Text(bodyLines) + Text(retLine);
    TextAppend4(defLine, doc, bodyLines, retLine);
    Generate(head) + Generate(b3)
  }

  /**
   * Shape of a function: the `def` line comes first at `indent`; the
   * docstring comes second, at `indent + 1`, exactly when the comment is
   * non-empty; the `return` line comes last, once, at `indent + 1`; every line
   * after the first is nested at least one level deeper than the `def`.
   */
  lemma {:induction false} FuncShape(name: string, params: seq<PyVal>, rets: seq<PyVal>, comment: string,
                  indent: nat, body: seq<Stmt>)
    ensures var ls := FuncLines(name, params, rets, comment, indent, body);
            && |ls| == |Lines(indent + 1, body)| + (if comment != "" then 3 else 2)
            && ls[0] == Line(indent, "def " + name + "(" + ParseParams(params) + ") -> " + GetRetsType(rets) + ":")
            && (comment != "" ==> ls[1] == Line(indent + 1, "\"\"\"" + comment + "\"\"\""))
            && ls[|ls| - 1] == Line(indent + 1, "return " + GetRets(rets))
            && (forall i :: 1 <= i < |ls| ==> ls[i].depth >= indent + 1)
  {
    var ls := FuncLines(name, params, rets, comment, indent, body);
    var doc := DocLines(indent + 1, comment);
    var bodyLines := Lines(indent + 1, body);
    var retLine := [Line(indent + 1, ReturnLine(rets))];
    var tail := doc + bodyLines + retLine;
    assert ls == [ls[0]] + tail;
    assert AtLeast(tail, indent + 1) by {
      LinesAtLeast(indent + 1, body);
      AtLeastAppend(doc, bodyLines, indent + 1);
      AtLeastAppend(doc + bodyLines, retLine, indent + 1);
    }
    forall i | 1 <= i < |ls|
      ensures ls[i].depth >= indent + 1
    {
      assert ls[i] == tail[i - 1];
    }
  }
}
