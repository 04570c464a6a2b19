/**
 * The scenarios of test/test.cpp, worked out to the lines the model emits
 * for them: each line's indentation depth and its text.
 */
module Scenarios {
  import opened Context
  import opened Values
  import opened Body
  import opened Func
  import Cls
  import opened Numerals
  import opened Strings

  // ---------------------------------------------------------------------------
  // `addFuncs("add", {{"a","int"},{"b","int"}}, {{"s","int"}}, "两数之和", …)`
  // ---------------------------------------------------------------------------

  const AddParams: seq<PyVal> := [PyVal("a", "int"), PyVal("b", "int")]
  const AddRets: seq<PyVal> := [PyVal("s", "int")]
  const AddBody: seq<Stmt> := [Statement("s = a+b")]

  lemma {:induction false} AddHeader()
    ensures DefHeader("add", AddParams, AddRets) == "def add(a:int, b:int) -> int:"
  {
    assert ParamText(AddParams[0]) == "a:int" && ParamText(AddParams[1]) == "b:int";
    assert ParamTexts(AddParams) == ["a:int", "b:int"];
    assert ParseParams(AddParams) == "a:int, b:int";
  }

  lemma {:induction false} AddLines()
    ensures FuncLines("add", AddParams, AddRets, "两数之和", 0, AddBody)
         == [Line(0, "def add(a:int, b:int) -> int:"), Line(1, "\"\"\"两数之和\"\"\""),
             Line(1, "s = a+b"), Line(1, "return s")]
  {
    AddHeader();
    assert DocLine("两数之和") == "\"\"\"两数之和\"\"\"";
    assert Lines(1, AddBody) == [Line(1, "s = a+b")];
    assert ReturnLine(AddRets) == "return s";
  }

  /** The `add` function of test/test.cpp, line by line. */
  lemma {:induction false} AddFunction()
    ensures FuncCtx("add", AddParams, AddRets, "两数之和", 0, AddBody)
         == Text([Line(0, "def add(a:int, b:int) -> int:"), Line(1, "\"\"\"两数之和\"\"\""),
                  Line(1, "s = a+b"), Line(1, "return s")])
  {
    AddLines();
  }

  // ---------------------------------------------------------------------------
  // `addFuncs("main", {}, {}, "hello world!", …)` with a `forCtx("i", 1, 10, …)`
  // ---------------------------------------------------------------------------

  const MainLoop: Stmt := ForRange("i", 1, 10, [Statement("i += 1")])
  const MainBody: seq<Stmt> := [Statement("print(\"hello world\")"), MainLoop]

  lemma {:induction false} MainHeader()
    ensures DefHeader("main", [], []) == "def main() -> None:"
  {
    assert ParseParams([]) == "";
  }

  lemma {:induction false} LoopHeader()
    ensures ForHeader("i", 1, 10) == "for i in range(1, 10):"
  {
    assert IntToString(1) == "1" && IntToString(10) == "10";
  }

  lemma {:induction false} MainBodyLines()
    ensures Lines(1, MainBody)
         == [Line(1, "print(\"hello world\")"), Line(1, "for i in range(1, 10):"), Line(2, "i += 1")]
  {
    LoopHeader();
    assert Lines(2, [Statement("i += 1")]) == [Line(2, "i += 1")];
    assert StmtLines(1, MainLoop) == [Line(1, "for i in range(1, 10):"), Line(2, "i += 1")];
    assert Lines(1, MainBody[1..]) == StmtLines(1, MainLoop);
  }

  lemma {:induction false} MainLines()
    ensures FuncLines("main", [], [], "hello world!", 0, MainBody)
         == [Line(0, "def main() -> None:"), Line(1, "\"\"\"hello world!\"\"\""),
             Line(1, "print(\"hello world\")"), Line(1, "for i in range(1, 10):"),
             Line(2, "i += 1"), Line(1, "return ")]
  {
    MainHeader();
    assert DocLine("hello world!") == "\"\"\"hello world!\"\"\"";
    MainBodyLines();
    assert ReturnLine([]) == "return ";
  }

  /**
   * The `main` function of test/test.cpp: a statement, then a `for` loop
   * over `range(1, 10)` whose body sits one level deeper than the loop.
   */
  lemma {:induction false} MainFunction()
    ensures FuncCtx("main", [], [], "hello world!", 0, MainBody)
         == Text([Line(0, "def main() -> None:"), Line(1, "\"\"\"hello world!\"\"\""),
                  Line(1, "print(\"hello world\")"), Line(1, "for i in range(1, 10):"),
                  Line(2, "i += 1"), Line(1, "return ")])
  {
    MainLines();
  }

  // ---------------------------------------------------------------------------
  // `addClass("Dev", "", …)` with `addMemVal({"name", "str"})`
  // ---------------------------------------------------------------------------

  const DevMembers: seq<PyVal> := [Receiver, PyVal("name", "str")]

  lemma {:induction false} DevParams()
    ensures ParseParams(DevMembers) == "self, name:str"
  {
    assert ParamText(DevMembers[0]) == "self" && ParamText(DevMembers[1]) == "name:str";
    var texts := ParamTexts(DevMembers);
    assert texts == ["self", "name:str"];
    assert Join(texts[1..], ", ") == "name:str";
  }

  lemma {:induction false} DevAssignments()
    ensures Cls.Assignments(2, DevMembers) == [Line(2, "self.name = name")]
  {
    assert Cls.Assignment(DevMembers[1].name) == "self.name = name";
  }

  /**
   * The constructor the `Dev` class of test/test.cpp gets: the receiver and
   * the declared member as parameters, one assignment per member.
   */
  lemma {:induction false} DevConstructor()
    ensures Cls.InitLines(1, DevMembers)
         == [Line(1, "def __init__(self, name:str) -> None:"), Line(2, "self.name = name"), Line(2, "return ")]
  {
    DevParams();
    DevAssignments();
    assert "def __init__(" + "self, name:str" + ") -> None:" == "def __init__(self, name:str) -> None:";
  }

  /**
   * An `if`/`elif`/`else` chain inside a function body: the three headers
   * line up at the chain's depth and each body sits one level deeper.
   */
  lemma {:induction false} IfChain()
    ensures Lines(1, [If("x > 0", [Statement("y = 1")], [Elif("x < 0", [Statement("y = -1")])],
                         Else([Statement("y = 0")]))])
         == [Line(1, "if x > 0:"), Line(2, "y = 1"), Line(1, "elif x < 0:"), Line(2, "y = -1"),
             Line(1, "else:"), Line(2, "y = 0")]
  {
    var elifs := [Elif("x < 0", [Statement("y = -1")])];
    var s := If("x > 0", [Statement("y = 1")], elifs, Else([Statement("y = 0")]));
    assert IfHeader("x > 0") == "if x > 0:";
    assert ElifHeader("x < 0") == "elif x < 0:";
    assert Lines(2, [Statement("y = 1")]) == [Line(2, "y = 1")];
    assert Lines(2, [Statement("y = -1")]) == [Line(2, "y = -1")];
    assert Lines(2, [Statement("y = 0")]) == [Line(2, "y = 0")];
    assert BlockLines(1, IfHeader("x > 0"), [Statement("y = 1")]) == [Line(1, "if x > 0:"), Line(2, "y = 1")];
    assert ElifLines(1, elifs[1..]) == [];
    assert ElifLines(1, elifs) == [Line(1, "elif x < 0:"), Line(2, "y = -1")];
    assert ElseLines(1, Else([Statement("y = 0")])) == [Line(1, "else:"), Line(2, "y = 0")];
    assert Lines(1, [s]) == StmtLines(1, s);
  }
}
