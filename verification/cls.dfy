/** `cls_ctx` (src/pygen.cpp:85-123): one class definition. */
module Cls {
  import opened Strings
  import opened Context
  import opened Values
  import opened Body
  import opened Func

  /**
   * A class under construction: its name, docstring and indent, the member
   * values the constructor will take (the receiver first), and the text of
   * the member functions declared so far.
   */
  datatype ClsCtx = ClsCtx(name: string, comment: string, indent: nat, memVals: seq<PyVal>, code: string)

  /** A fresh class: the member list holds only the receiver, no member function yet. */
  function NewCls(name: string, comment: string, indent: nat): ClsCtx
  {
    ClsCtx(name, comment, indent, [Receiver], "")
  }

  /** `addMemVal(val)`: the value goes last in the member list; nothing else changes. */
  function AddMemVal(c: ClsCtx, v: PyVal): (r: ClsCtx)
    ensures r.memVals == c.memVals + [v]
    ensures r.name == c.name && r.comment == c.comment && r.indent == c.indent && r.code == c.code
  {
    c.(memVals := c.memVals + [v])
  }

  /** `addMemVal({…})`: each value in turn, so all of them go last, in the order given. */
  function AddMemVals(c: ClsCtx, vs: seq<PyVal>): (r: ClsCtx)
    ensures r == c.(memVals := c.memVals + vs)
    decreases vs
  {
    if vs == [] then c
    else
      assert c.memVals + [vs[0]] + vs[1..] == c.memVals + vs;
      AddMemVals(AddMemVal(c, vs[0]), vs[1..])
  }

  /**
   * `addMemFunc`: the function, with the receiver put in front of its
   * parameters, rendered one level deeper than the class and appended with a
   * trailing newline after the member functions declared before it.
   */
  function AddMemFunc(c: ClsCtx, name: string, params: seq<PyVal>, rets: seq<PyVal>,
                      comment: string, body: seq<Stmt>): (r: ClsCtx)
    ensures r.memVals == c.memVals
    ensures r.name == c.name && r.comment == c.comment && r.indent == c.indent
    ensures r.code == c.code + Text(FuncLines(name, [Receiver] + params, rets, comment, c.indent + 1, body)) + "\n"
  {
    c.(code := c.code + FuncCtx(name, [Receiver] + params, rets, comment, c.indent + 1, body) + "\n")
  }

  function Assignment(field: string): string
  {
    "self." + field + " = " + field
  }

  /** The return values `__init__` is given: one nameless value typed `None`. */
  const InitRets: seq<PyVal> := [PyVal("", "None")]

  /** What the `__init__` callback writes: one assignment per member after the receiver. */
  function InitBody(memVals: seq<PyVal>): seq<Stmt>
  {
    if |memVals| <= 1 then []
    else seq(|memVals| - 1, i requires 0 <= i < |memVals| - 1 => Statement(Assignment(memVals[i + 1].name)))
  }

  /** The `self.f = f` lines at `d`, one per member after the receiver, in order. */
  function Assignments(d: nat, memVals: seq<PyVal>): seq<Line>
  {
    if |memVals| <= 1 then []
    else seq(|memVals| - 1, i requires 0 <= i < |memVals| - 1 => Line(d, Assignment(memVals[i + 1].name)))
  }

  /**
   * The constructor's lines at `d`: the `def __init__` line taking every
   * member, the receiver bare, annotated `-> None`; then, one level deeper,
   * `self.f = f` for every member after the receiver in declaration order;
   * then a `return` with an empty expression.
   */
  function InitLines(d: nat, memVals: seq<PyVal>): seq<Line>
  {
    [Line(d, "def __init__(" + ParseParams(memVals) + ") -> None:")]
    + Assignments(d + 1, memVals)
    + [Line(d + 1, "return ")]
  }

  /** A list of one-line statements renders as those lines, in order. */
  lemma {:induction false} StatementLines(d: nat, ss: seq<Stmt>)
    requires forall i :: 0 <= i < |ss| ==> ss[i].Statement?
    ensures Lines(d, ss) == seq(|ss|, i requires 0 <= i < |ss| => Line(d, ss[i].text))
  {
    if ss != [] {
      StatementLines(d, ss[1..]);
    }
  }

  /** The `__init__` body renders as the assignments, at the body's depth. */
  lemma {:induction false} InitBodyLines(d: nat, memVals: seq<PyVal>)
    ensures Lines(d, InitBody(memVals)) == Assignments(d, memVals)
  {
    var body := InitBody(memVals);
    StatementLines(d, body);
    var ls := Lines(d, body);
    var fs := Assignments(d, memVals);
    assert |ls| == |fs|;
    forall i | 0 <= i < |ls|
      ensures ls[i] == fs[i]
    {
      assert body[i] == Statement(Assignment(memVals[i + 1].name));
    }
  }

  /**
   * The constructor's `def` line with its literal pieces merged: a regrouping
   * step for `InitFuncLines`, kept apart so the solver handles the string
   * literals with the parameter list left abstract.
   */
  lemma {:induction false} InitHeader(p: string)
    ensures "def " + "__init__" + "(" + p + ") -> " + "None" + ":" == "def __init__(" + p + ") -> None:"
  {
    var pre, post := "def __init__(", ") -> None:";
    assert "def " + "__init__" + "(" == pre;
    assert ") -> " + "None" + ":" == post;
    assert pre + p + ") -> " + "None" + ":" == pre + p + (") -> " + "None" + ":");
  }

  /** The constructor `generate` builds renders as `InitLines`. */
  lemma {:induction false} InitFuncLines(d: nat, memVals: seq<PyVal>)
    ensures FuncLines("__init__", memVals, InitRets, "", d, InitBody(memVals)) == InitLines(d, memVals)
  {
    var body := InitBody(memVals);
    var header := Line(d, "def __init__(" + ParseParams(memVals) + ") -> None:");
    var fields := Assignments(d + 1, memVals);
    var ret := Line(d + 1, "return ");
    assert Lines(d + 1, body) == fields by {
      InitBodyLines(d + 1, memVals);
    }
    assert Line(d, DefHeader("__init__", memVals, InitRets)) == header by {
      assert GetRetsType(InitRets) == "None";
      InitHeader(ParseParams(memVals));
    }
    assert Line(d + 1, ReturnLine(InitRets)) == ret;
    assert DocLines(d + 1, "") == [];
    assert FuncLines("__init__", memVals, InitRets, "", d, body) == [header] + [] + fields + [ret];
    assert [header] + [] == [header];
  }

  function ClassDoc(comment: string): string
  {
    if comment != "" then "    \"\"\" " + comment + " \"\"\"\n" else ""
  }

  /**
   * `cls_ctx::generate`: the `class` line, the docstring when there is one,
   * the synthesized constructor one level deeper, a newline, then the member
   * functions in declaration order.
   */
  function Generate(c: ClsCtx): (r: string)
    ensures r == "class " + c.name + ":\n" + ClassDoc(c.comment)
                 + Text(InitLines(c.indent + 1, c.memVals)) + "\n" + c.code
  {
    var init := FuncCtx("__init__", c.memVals, InitRets, "", c.indent + 1, InitBody(c.memVals));
    InitFuncLines(c.indent + 1, c.memVals);
    "class " + c.name + ":\n" + ClassDoc(c.comment) + init + "\n" + c.code
  }

  /**
   * Members are materialized when the class is rendered, not when a member
   * function is declared: declaring a member before or after a member
   * function leaves the class in the same state, so it renders the same.
   */
  lemma {:induction false} FieldsMaterializeAtRender(c: ClsCtx, v: PyVal, name: string, params: seq<PyVal>,
                                  rets: seq<PyVal>, comment: string, body: seq<Stmt>)
    ensures AddMemVal(AddMemFunc(c, name, params, rets, comment, body), v)
         == AddMemFunc(AddMemVal(c, v), name, params, rets, comment, body)
  {
    MemValFuncText(c, v, name, params, rets, comment, body);
    MemValFuncMembers(c, v, name, params, rets, comment, body);
  }

  lemma {:induction false} MemValFuncText(c: ClsCtx, v: PyVal, name: string, params: seq<PyVal>,
                       rets: seq<PyVal>, comment: string, body: seq<Stmt>)
    ensures AddMemVal(AddMemFunc(c, name, params, rets, comment, body), v).code
         == AddMemFunc(AddMemVal(c, v), name, params, rets, comment, body).code
  {
  }

  lemma {:induction false} MemValFuncMembers(c: ClsCtx, v: PyVal, name: string, params: seq<PyVal>,
                          rets: seq<PyVal>, comment: string, body: seq<Stmt>)
    ensures AddMemVal(AddMemFunc(c, name, params, rets, comment, body), v).memVals
         == AddMemFunc(AddMemVal(c, v), name, params, rets, comment, body).memVals
  {
  }

  /** One call a class callback makes on its `cls_ctx`. */
  datatype ClassOp =
    | MemVal(v: PyVal)
    | MemVals(vs: seq<PyVal>)
    | MemFunc(name: string, params: seq<PyVal>, rets: seq<PyVal>, comment: string, body: seq<Stmt>)

  function ApplyClassOp(c: ClsCtx, op: ClassOp): ClsCtx
  {
    match op
    case MemVal(v) => AddMemVal(c, v)
    case MemVals(vs) => AddMemVals(c, vs)
    case MemFunc(n, ps, rs, cm, b) => AddMemFunc(c, n, ps, rs, cm, b)
  }

  /** A class callback: its calls in order. */
  function ApplyClassOps(c: ClsCtx, ops: seq<ClassOp>): ClsCtx
    decreases ops
  {
    if ops == [] then c else ApplyClassOps(ApplyClassOp(c, ops[0]), ops[1..])
  }

  /** The members one call declares. */
  function OpFields(op: ClassOp): seq<PyVal>
  {
    match op
    case MemVal(v) => [v]
    case MemVals(vs) => vs
    case MemFunc(_, _, _, _, _) => []
  }

  /** The member-function text one call contributes at depth `d`. */
  function OpText(d: nat, op: ClassOp): string
  {
    match op
    case MemFunc(n, ps, rs, cm, b) => Text(FuncLines(n, [Receiver] + ps, rs, cm, d, b)) + "\n"
    case _ => ""
  }

  /** The members the calls declare, in call order. */
  function FieldsOf(ops: seq<ClassOp>): seq<PyVal>
  {
    if ops == [] then [] else OpFields(ops[0]) + FieldsOf(ops[1..])
  }

  /** The member functions the calls declare, rendered at `d`, in call order. */
  function MethodsText(d: nat, ops: seq<ClassOp>): string
  {
    if ops == [] then "" else OpText(d, ops[0]) + MethodsText(d, ops[1..])
  }

  lemma {:induction false} ApplyClassOpEffect(c: ClsCtx, op: ClassOp)
    ensures ApplyClassOp(c, op) ==
              c.(memVals := c.memVals + OpFields(op), code := c.code + OpText(c.indent + 1, op))
  {
    match op
    case MemVal(v) =>
      assert c.code + OpText(c.indent + 1, op) == c.code;
    case MemVals(vs) =>
      assert c.code + OpText(c.indent + 1, op) == c.code;
    case MemFunc(n, ps, rs, cm, b) =>
      var t := Text(FuncLines(n, [Receiver] + ps, rs, cm, c.indent + 1, b));
      var r := AddMemFunc(c, n, ps, rs, cm, b);
      assert r.code == c.code + t + "\n";
      assert OpText(c.indent + 1, op) == t + "\n";
      AppendAssoc3(c.code, t, "\n");
      assert c.memVals + OpFields(op) == c.memVals;
  }

  /**
   * After a class callback, the member list is the receiver followed by
   * every declared member in call order, and the member-function text is
   * every declared function in call order; name, docstring and indent are
   * those the class was created with.
   */
  lemma {:induction false} ApplyClassOpsEffect(c: ClsCtx, ops: seq<ClassOp>)
    ensures var r := ApplyClassOps(c, ops);
            && r.memVals == c.memVals + FieldsOf(ops)
            && r.code == c.code + MethodsText(c.indent + 1, ops)
            && r.name == c.name && r.comment == c.comment && r.indent == c.indent
    decreases ops
  {
    if ops == [] {
      assert c.memVals + [] == c.memVals && c.code + "" == c.code;
    } else {
      var c' := ApplyClassOp(c, ops[0]);
      var f0, fs := OpFields(ops[0]), FieldsOf(ops[1..]);
      var t0, ts := OpText(c.indent + 1, ops[0]), MethodsText(c.indent + 1, ops[1..]);
      assert c'.memVals == c.memVals + f0 && c'.code == c.code + t0
          && c'.name == c.name && c'.comment == c.comment && c'.indent == c.indent by {
        ApplyClassOpEffect(c, ops[0]);
      }
      var r := ApplyClassOps(c', ops[1..]);
      assert r.memVals == c'.memVals + fs && r.code == c'.code + ts
          && r.name == c'.name && r.comment == c'.comment && r.indent == c'.indent by {
        ApplyClassOpsEffect(c', ops[1..]);
      }
      assert ApplyClassOps(c, ops) == r;
      assert FieldsOf(ops) == f0 + fs;
      assert MethodsText(c.indent + 1, ops) == t0 + ts;
      AppendAssoc3(c.memVals, f0, fs);
      AppendAssoc3(c.code, t0, ts);
    }
  }

  /**
   * A class as the document renders it: the constructor takes the receiver
   * and then every declared member, and assigns each declared member in
   * order; the member functions follow in declaration order.
   */
  lemma {:induction false} ClassLayout(name: string, comment: string, ops: seq<ClassOp>)
    ensures Generate(ApplyClassOps(NewCls(name, comment, 0), ops))
         == "class " + name + ":\n" + ClassDoc(comment)
            + Text(InitLines(1, [Receiver] + FieldsOf(ops))) + "\n" + MethodsText(1, ops)
  {
    var c := NewCls(name, comment, 0);
    var r := ApplyClassOps(c, ops);
    var methods := MethodsText(1, ops);
    assert r.memVals == [Receiver] + FieldsOf(ops) && r.code == "" + methods
        && r.name == name && r.comment == comment && r.indent == 0 by {
      ApplyClassOpsEffect(c, ops);
    }
    assert "" + methods == methods;
  }
}
