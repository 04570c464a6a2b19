/**
 * `PyFile` (src/pygen.cpp:46-83): the header of imports and top-level
 * expressions, the globals region, the classes and the functions, and their
 * assembly into one output text.
 */
module Document {
  import opened Context
  import opened Strings
  import opened Values
  import opened Body
  import opened Func
  import Cls

  /**
   * A document under construction: the header and globals contexts, the
   * classes (rendered when the document is written) and the functions
   * (rendered when they are added), each in the order added.
   */
  datatype PyFile = PyFile(header: Ctx, vals: Ctx, clss: seq<Cls.ClsCtx>, funcs: seq<string>)

  function NewFile(): PyFile
  {
    PyFile(Ctx(0, ""), Ctx(0, ""), [], [])
  }

  function ImportFromLine(lib: string, mods: seq<string>): string
  {
    "from " + lib + " import " + Join(mods, ", ")
  }

  /**
   * `import(lib, {m1, m2, …})`: one header line `from lib import m1, m2, …`;
   * only the header changes.
   */
  function ImportFrom(f: PyFile, lib: string, mods: seq<string>): (r: PyFile)
    ensures r.vals == f.vals && r.clss == f.clss && r.funcs == f.funcs
    ensures r.header.indent == f.header.indent
    ensures r.header.code == f.header.code + Text([Line(f.header.indent, ImportFromLine(lib, mods))])
  {
    f.(header := WriteLine(f.header, ImportFromLine(lib, mods)))
  }

  /**
   * The names after `import` are the requested modules in the caller's
   * order: splitting them at ", " gives the list back.
   */
  lemma {:induction false} ImportFromRoundTrip(lib: string, mods: seq<string>)
    requires forall i :: 0 <= i < |mods| ==> !Contains(mods[i], ", ")
    requires mods != [] ==> mods[|mods| - 1] != ""
    ensures var line := ImportFromLine(lib, mods);
            && line[..|lib| + 13] == "from " + lib + " import "
            && SplitRef(line[|lib| + 13..], ", ") == mods
  {
    var line := ImportFromLine(lib, mods);
    assert line[|lib| + 13..] == Join(mods, ", ");
    CommaSpaceBorderless();
    SplitJoinRoundTrip(mods, ", ");
  }

  /** `import(lib)`: one header line `import lib`; only the header changes. */
  function Import(f: PyFile, lib: string): (r: PyFile)
    ensures r.vals == f.vals && r.clss == f.clss && r.funcs == f.funcs
    ensures r.header.indent == f.header.indent
    ensures r.header.code == f.header.code + Text([Line(f.header.indent, "import " + lib)])
  {
    f.(header := WriteLine(f.header, "import " + lib))
  }

  /** `expr(e)`: `e` verbatim as one header line; only the header changes. */
  function Expr(f: PyFile, e: string): (r: PyFile)
    ensures r.vals == f.vals && r.clss == f.clss && r.funcs == f.funcs
    ensures r.header.indent == f.header.indent
    ensures r.header.code == f.header.code + Text([Line(f.header.indent, e)])
  {
    f.(header := WriteLine(f.header, e))
  }

  /**
   * `addClass`: a class at indent 0, shaped by its callback, goes after the
   * earlier classes; its members are the receiver and then those the callback
   * declares, its text the member functions the callback declares.
   */
  function AddClass(f: PyFile, name: string, comment: string, ops: seq<Cls.ClassOp>): (r: PyFile)
    ensures r.header == f.header && r.vals == f.vals && r.funcs == f.funcs
    ensures |r.clss| == |f.clss| + 1 && r.clss[..|f.clss|] == f.clss
    ensures var c := r.clss[|f.clss|];
            && c.name == name && c.comment == comment && c.indent == 0
            && c.memVals == [Receiver] + Cls.FieldsOf(ops)
            && c.code == Cls.MethodsText(1, ops)
  {
    var c := Cls.ApplyClassOps(Cls.NewCls(name, comment, 0), ops);
    Cls.ApplyClassOpsEffect(Cls.NewCls(name, comment, 0), ops);
    assert "" + Cls.MethodsText(1, ops) == Cls.MethodsText(1, ops);
    f.(clss := f.clss + [c])
  }

  /**
   * `addFuncs`: the function is rendered at once, at indent 0, and its text
   * goes after the earlier functions; nothing else changes.
   */
  function AddFuncs(f: PyFile, name: string, params: seq<PyVal>, rets: seq<PyVal>,
                    comment: string, body: seq<Stmt>): (r: PyFile)
    ensures r.header == f.header && r.vals == f.vals && r.clss == f.clss
    ensures r.funcs == f.funcs + [Text(FuncLines(name, params, rets, comment, 0, body))]
  {
    f.(funcs := f.funcs + [FuncCtx(name, params, rets, comment, 0, body)])
  }

  function ClassesText(cs: seq<Cls.ClsCtx>): string
  {
    if cs == [] then "" else Cls.Generate(cs[0]) + "\n" + ClassesText(cs[1..])
  }

  function FuncsText(fs: seq<string>): string
  {
    if fs == [] then "" else fs[0] + "\n" + FuncsText(fs[1..])
  }

  lemma {:induction false} FuncsTextSnoc(fs: seq<string>, x: string)
    ensures FuncsText(fs + [x]) == FuncsText(fs) + x + "\n"
    decreases |fs|
  {
    if fs == [] {
      assert fs + [x] == [x];
    } else {
      assert (fs + [x])[1..] == fs[1..] + [x];
      FuncsTextSnoc(fs[1..], x);
      AppendAssoc(fs[0] + "\n", FuncsText(fs[1..]), x, "\n");
    }
  }

  /** `PyFile::write` without the stream: the text it sends to the file. */
  function Write(f: PyFile): string
  {
    Generate(f.header) + "\n" + Generate(f.vals) + "\n" + ClassesText(f.clss) + FuncsText(f.funcs)
  }

  /** Adding a function appends its text and a newline to the end of the written document. */
  lemma {:induction false} WriteAddFuncs(f: PyFile, name: string, params: seq<PyVal>, rets: seq<PyVal>,
                                         comment: string, body: seq<Stmt>)
    ensures Write(AddFuncs(f, name, params, rets, comment, body))
         == Write(f) + Text(FuncLines(name, params, rets, comment, 0, body)) + "\n"
  {
    var t := Text(FuncLines(name, params, rets, comment, 0, body));
    var p := Generate(f.header) + "\n" + Generate(f.vals) + "\n" + ClassesText(f.clss);
    FuncsTextSnoc(f.funcs, t);
    AppendAssoc(p, FuncsText(f.funcs), t, "\n");
  }

  /** One call a host program makes on a `PyFile`. */
  datatype DocOp =
    | FromImport(lib: string, mods: seq<string>)
    | ModuleImport(lib: string)
    | TopLevel(expr: string)
    | DefineClass(name: string, comment: string, ops: seq<Cls.ClassOp>)
    | DefineFunction(name: string, params: seq<PyVal>, rets: seq<PyVal>, comment: string, body: seq<Stmt>)

  function ApplyDocOp(f: PyFile, op: DocOp): PyFile
  {
    match op
    case FromImport(lib, mods) => ImportFrom(f, lib, mods)
    case ModuleImport(lib) => Import(f, lib)
    case TopLevel(e) => Expr(f, e)
    case DefineClass(n, cm, cops) => AddClass(f, n, cm, cops)
    case DefineFunction(n, ps, rs, cm, b) => AddFuncs(f, n, ps, rs, cm, b)
  }

  /** The document after the host program's calls, in order. */
  function Build(ops: seq<DocOp>): PyFile
  {
    if ops == [] then NewFile() else ApplyDocOp(Build(ops[..|ops| - 1]), ops[|ops| - 1])
  }

  /** The header line one call writes, if any. */
  function OpHeader(op: DocOp): seq<Line>
  {
    match op
    case FromImport(lib, mods) => [Line(0, ImportFromLine(lib, mods))]
    case ModuleImport(lib) => [Line(0, "import " + lib)]
    case TopLevel(e) => [Line(0, e)]
    case _ => []
  }

  /** The header lines of the calls, in call order. */
  function HeaderLines(ops: seq<DocOp>): seq<Line>
  {
    if ops == [] then [] else HeaderLines(ops[..|ops| - 1]) + OpHeader(ops[|ops| - 1])
  }

  /** The classes of the calls, in call order. */
  function ClassesOf(ops: seq<DocOp>): seq<Cls.ClsCtx>
  {
    if ops == [] then []
    else
      ClassesOf(ops[..|ops| - 1])
      + match ops[|ops| - 1]
        case DefineClass(n, cm, cops) => [Cls.ApplyClassOps(Cls.NewCls(n, cm, 0), cops)]
        case _ => []
  }

  /** The rendered functions of the calls, in call order. */
  function FunctionsOf(ops: seq<DocOp>): seq<string>
  {
    if ops == [] then []
    else
      FunctionsOf(ops[..|ops| - 1])
      + match ops[|ops| - 1]
        case DefineFunction(n, ps, rs, cm, b) => [FuncCtx(n, ps, rs, cm, 0, b)]
        case _ => []
  }

  /** One call: the header grows by that call's line, a class or function is appended. */
  lemma {:induction false} ApplyDocOpEffect(f: PyFile, op: DocOp)
    requires f.header.indent == 0
    ensures ApplyDocOp(f, op).header == Ctx(0, f.header.code + Text(OpHeader(op)))
    ensures ApplyDocOp(f, op).vals == f.vals
    ensures ApplyDocOp(f, op).clss == f.clss + match op
                                                case DefineClass(n, cm, cops) => [Cls.ApplyClassOps(Cls.NewCls(n, cm, 0), cops)]
                                                case _ => []
    ensures ApplyDocOp(f, op).funcs == f.funcs + match op
                                                  case DefineFunction(n, ps, rs, cm, b) => [FuncCtx(n, ps, rs, cm, 0, b)]
                                                  case _ => []
  {
    match op
    case FromImport(lib, mods) =>
    case ModuleImport(lib) =>
    case TopLevel(e) =>
    case DefineClass(n, cm, cops) =>
      assert f.header.code + Text([]) == f.header.code;
    case DefineFunction(n, ps, rs, cm, b) =>
      assert f.header.code + Text([]) == f.header.code;
  }

  /**
   * Whatever the interleaving of calls, the header holds exactly the import
   * and expression lines at depth 0 in call order, the globals stay empty,
   * and the classes and the functions are each kept in call order.
   */
  lemma {:induction false} BuildState(ops: seq<DocOp>)
    ensures Build(ops).header == Ctx(0, Text(HeaderLines(ops)))
    ensures Build(ops).vals == Ctx(0, "")
    ensures Build(ops).clss == ClassesOf(ops)
    ensures Build(ops).funcs == FunctionsOf(ops)
  {
    if ops != [] {
      var init := ops[..|ops| - 1];
      var op := ops[|ops| - 1];
      var f := Build(init);
      assert Build(ops) == ApplyDocOp(f, op);
      BuildState(init);
      ApplyDocOpEffect(f, op);
      assert Text(HeaderLines(ops)) == Text(HeaderLines(init)) + Text(OpHeader(op)) by {
        TextAppend(HeaderLines(init), OpHeader(op));
      }
    }
  }

  /**
   * The written document: the header, a newline, the (empty) globals, a
   * newline, then every class followed by a newline in call order, then every
   * function followed by a newline in call order. Classes always come before
   * functions, whatever order they were added in.
   */
  lemma {:induction false} DocumentLayout(ops: seq<DocOp>)
    ensures Write(Build(ops))
         == Text(HeaderLines(ops)) + "\n" + "\n" + ClassesText(ClassesOf(ops)) + FuncsText(FunctionsOf(ops))
  {
    var f := Build(ops);
    BuildState(ops);
    EmptyGlobals(Text(HeaderLines(ops)), ClassesText(ClassesOf(ops)), FuncsText(FunctionsOf(ops)));
  }

  /** The empty globals region leaves two newlines in a row; a regrouping step for `DocumentLayout`. */
  lemma {:induction false} EmptyGlobals(header: string, classes: string, funcs: string)
    ensures header + "\n" + "" + "\n" + classes + funcs == header + "\n" + "\n" + classes + funcs
  {
    assert header + "\n" + "" == header + "\n";
  }
}
