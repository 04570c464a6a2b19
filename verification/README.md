# pyGen emission engine in Dafny

pyGen is a C++ library that writes Python source files. A host program
describes a file through calls on a `PyFile`: imports, top-level
expressions, classes and functions. Bodies are written through callbacks
on a `body_ctx`, which offers statements, `if`/`elif`/`else` chains, `while`
loops, `for … in range(start, end)` and `for i, v in enumerate(x)`. Every
context writes lines indented by four spaces per level. A nested block
opens a child context one level deeper, and the child's text is appended
after the block header.

This project models that emission engine as pure functions over immutable
values:

- `Wrappers`, `Strings` and `Numerals` hold the string plumbing:
  - `fmt::join` becomes `Join`;
  - `details::Split` becomes a loop method with a recursive reference definition, `SplitRef`;
  - integer rendering for `range(…)` becomes `IntToString`.
- `Values` holds `PyVal` and the three signature helpers: `parseParams`, `getRetsType` and `getRets`.
- `Context` holds the indented buffer, `Ctx(indent, code)`, and `writeLine`. It also holds the line model the rest of the project states its contracts in:
  - a `Line(depth, text)` is one physical line;
  - `Text(ls)` is every line indented and followed by a newline.
- `Body` holds the block constructors. The callbacks are replaced by a statement tree, `Stmt`, because a callback only ever appends lines synchronously to the context it is handed.
  - The constructors (`IfCtx`, `ElifCtx`, `ElseCtx`, `WhileCtx`, `ForCtx`, `ForEnumCtx`) thread a `Ctx` and append to its buffer as the source does.
  - `Lines(depth, stmts)` is the independent, declarative rendering.
  - `Run`'s contract ties the two together.
- `Func` holds `func_ctx`: the `def` line, the optional docstring, the body and the synthesized `return`.
- `Cls` holds `cls_ctx`: member values, member functions, and `generate` with its synthesized `__init__`.
- `Document` holds `PyFile`: imports, expressions, classes, functions and the assembled text that `write` sends to the file. A host program's calls are a sequence of `DocOp`; a class callback's calls are a sequence of `ClassOp`.
- `Scenarios` works the two functions of test/test.cpp (`add` and `main`) and the constructor of its `Dev` class out to the exact lines the model emits. The `class Dev:` line and the `getIdn` method are not worked out.

Where include/pygen.hpp and src/pygen.cpp disagree, the model follows
src/pygen.cpp. The header's bodies for the block constructors, `func_ctx`
and `cls_ctx` are empty stubs or older versions. Three members of
`body_ctx` and `else_ctx` are empty stubs `{}` in the header and have no
definition in src/pygen.cpp:
- `statment(expr)` (include/pygen.hpp:72) is modelled as one `writeLine` of its argument. That matches its doc comment and its use in `cls_ctx::generate` (src/pygen.cpp:116).
- `elseCtx` (include/pygen.hpp:117) is modelled like `elifCtx` with the header `else:`. It ends the chain.
- `statment(val, expr)` (include/pygen.hpp:65) has no caller in src/pygen.cpp, so its rendering cannot be read from the code; it is not modelled.

`writeLine` writes its argument as one piece, even when it holds line breaks; nothing in src/pygen.cpp splits it (`details::Split` has no caller).

The three-argument constructor `cls_ctx(name, comment, indent)` that src/pygen.cpp:55 calls is defined in neither file, and neither file declares the `MemVals` member that `generate` reads (src/pygen.cpp:112-115). The header's two-argument constructor (include/pygen.hpp:154-155) is stale and has no member list. The member list is taken to start with the receiver `("self", "")`, which is what `generate`'s loop from index 1 presumes.

## Model

| member | source | states |
|---|---|---|
| Strings.FindSpec | src/pygen.cpp:196-201 | `std::string::find` from a position: a result is an occurrence at or after the position with none before it; no result means no occurrence from there on |
| Strings.FindShift | src/pygen.cpp:201 | searching from a later position is searching the remainder from its start, with the result moved by that position |
| Strings.JoinSnoc | src/pygen.cpp:17 | `fmt::join` of one more piece is the earlier join, the separator unless nothing came before, then the piece |
| Strings.Split | src/pygen.cpp:193-205 | for a non-empty separator, the pieces are those of the reference split (the text before the first separator, then the split of the rest), there are none exactly when the input is empty, and no piece contains the separator |
| Strings.SplitRefEmpty | src/pygen.cpp:203 | splitting yields no pieces if and only if the input is empty |
| Strings.SplitRefPieces | src/pygen.cpp:199 | no piece of a split contains the separator |
| Strings.SplitRefJoin | src/pygen.cpp:193-205 | for any non-empty separator, joining the pieces gives either the input back with a non-empty last piece, or the input minus one trailing separator |
| Strings.JoinedNoTrailing | src/pygen.cpp:199-203 | for a separator that does not overlap itself, pieces that join back to the whole input mean the input does not end with the separator |
| Strings.SplitRefJoinTrailing | src/pygen.cpp:193-205 | for a separator that does not overlap itself, the join loses one trailing separator if and only if the input ends with it, and otherwise gives the input back |
| Strings.SplitJoinRoundTrip | src/pygen.cpp:193-205 | for a separator that does not overlap itself, splitting the join of separator-free pieces whose last piece is non-empty gives exactly those pieces |
| Strings.SplitRefAfter | src/pygen.cpp:196-201 | for a separator that does not overlap itself, the first piece of `p + sep + rest` is `p` when `p` holds no separator, and the rest is the split of `rest` |
| Strings.NoEarlyOccurrence | src/pygen.cpp:201 | for a separator that does not overlap itself, no occurrence starts inside a separator-free piece that the separator follows |
| Strings.CommaSpaceBorderless | src/pygen.cpp:17 | the joiner ", " does not overlap itself, so lists joined with it can be split back |
| Numerals.NatToString | src/pygen.cpp:166 | the decimal rendering of a natural number is non-empty, all digits, and has no leading zero unless it is zero |
| Numerals.IntToString | src/pygen.cpp:166 | an integer renders with a leading '-' exactly when it is negative, followed by digits |
| Numerals.NatRoundTrip | src/pygen.cpp:166 | reading back the decimal rendering of a natural number gives the number |
| Numerals.IntRoundTrip | src/pygen.cpp:166 | reading back the rendering of any integer, negative ones included, gives the integer, so `range(start, end)` shows both bounds faithfully |
| Values.ParseParamsSnoc | src/pygen.cpp:8-18 | for any parameters whatever their texts hold, one more parameter extends the list by ", " (unless it was empty) and then `self` bare for a parameter named `self`, `name:type` otherwise |
| Values.ParseParamsRoundTrip | src/pygen.cpp:8-18 | when no parameter's text contains ", ": the list is empty for no parameters, and split at ", " it gives one piece per parameter in order, `self` bare for a parameter named `self` and `name:type` with no space for any other |
| Values.ReceiverFirst | src/pygen.cpp:91 | putting the receiver in front of a parameter list puts a bare `self` in front of its rendering, separated by ", " unless the list was empty |
| Values.ReturnsSnoc | src/pygen.cpp:20-44 | for any return values whatever their texts hold, a lone value gives its own type and name, and one more value after at least one gives `Tuple[…]` and `(…)` over the earlier types and names, a comma, then the new type and name |
| Values.ReturnArity | src/pygen.cpp:20-44 | annotation and return expression branch on the same arity: none gives `None` and ""; one gives the value's type and name; several give `Tuple[…]` and `(…)` whose contents, when no type or name contains "," and the last ones are non-empty, split at "," into the types and the names in declared order |
| Context.Indent | include/pygen.hpp:39-41 | the indentation at a depth is exactly four spaces per level |
| Context.IndentPrefix | include/pygen.hpp:39-41 | a shallower indentation is a prefix of a deeper one |
| Context.WriteLine | include/pygen.hpp:37-43 | a write keeps the indent and extends the buffer by exactly one line at the context's depth, leaving earlier text in front |
| Context.WriteLineExact | include/pygen.hpp:37-43 | one write adds exactly `4 * indent` spaces, then the line verbatim, then one newline, and leaves everything before untouched |
| Context.TextLines | include/pygen.hpp:37-43 | when no line's text holds a line break, the text split at its line breaks is exactly the indented lines, one per line, in order |
| Context.TextAppend | include/pygen.hpp:42 | the text of consecutive line lists is the concatenation of their texts |
| Context.WriteLineAsWrittenLosesLines | include/pygen.hpp:37-43 | writing into an `ostringstream` built from a copy of the buffer leaves the buffer unchanged, so it differs from the intended result after every write |
| Body.WriteStatement | src/pygen.cpp:116 | a statement is one line at the context's own depth, appended after the earlier text |
| Body.Nested | src/pygen.cpp:143-181 | a block is its header at the current depth followed directly by the child body's lines one level deeper; earlier text stays in front and the indent is unchanged |
| Body.IfCtx | src/pygen.cpp:143-151 | `if <cond>:` at the current depth, then the body one level deeper; the chain context returned has the same indent and the same buffer |
| Body.ElifCtx | src/pygen.cpp:183-191 | `elif <cond>:` lands directly after the preceding link, at the chain's depth, with its body one level deeper |
| Body.ElseCtx | include/pygen.hpp:112-117 | `else:` at the chain's depth, directly after the preceding link, with its body one level deeper |
| Body.WhileCtx | src/pygen.cpp:153-159 | `while <cond>:` at the current depth, then the body one level deeper, after the earlier text |
| Body.ForCtx | src/pygen.cpp:161-170 | `for <i> in range(<start>, <end>):` with the bounds in that order, then the body one level deeper, after the earlier text |
| Body.ForEnumCtx | src/pygen.cpp:172-181 | `for <i>, <v> in enumerate(<x>):`, then the body one level deeper, after the earlier text |
| Body.RunElifs | src/pygen.cpp:183-191 | a chain of `elifCtx` calls, each on the context the previous one returned, renders every link in order at the chain's depth |
| Body.RunElse | include/pygen.hpp:112-117 | the optional `else` ends the chain at the chain's depth, or adds nothing when there is none |
| Body.RunIf | src/pygen.cpp:143-151 | an `ifCtx` with its `elifCtx` links and optional `elseCtx` writes exactly the conditional's lines: headers at the same depth, each body one level deeper |
| Body.Exec | src/pygen.cpp:143-181 | one call on a body context adds exactly that construct's lines at the context's depth, and keeps the indent |
| Body.Run | src/pygen.cpp:137 | a callback's statements run in order grow the buffer by exactly the text of their lines at the context's depth, and leave the indent unchanged |
| Body.LinesAppend | src/pygen.cpp:137 | statements written one after another render as their renderings one after another |
| Body.RunAppend | src/pygen.cpp:137 | running `a` then `b` on a context is the same as running `a + b` |
| Body.LinesAtLeast | src/pygen.cpp:146 | no line a body at depth `d` produces is shallower than `d` |
| Body.IndentedAtDepth | include/pygen.hpp:39-41 | every line record a body at depth `d` produces starts with `4 * d` spaces once indented, however deeply it is nested |
| Body.PhysicalLinesIndented | include/pygen.hpp:39-41 | when no statement, condition or docstring holds a line break, the output text of a body at depth `d` has one physical line per line record and each starts with `4 * d` spaces |
| Body.LinesShift | src/pygen.cpp:146 | a body rendered `k` levels deeper gives the same lines in the same order, each `k` levels deeper: depth only adds indentation |
| Func.FuncCtx | src/pygen.cpp:125-141 | the function's text is exactly its line model: the `def` line, the docstring when there is one, the body, and the `return` |
| Func.FuncShape | src/pygen.cpp:125-141 | the first line is `def <name>(<params>) -> <rettype>:` at the indent; the docstring is second, one level deeper, exactly when the comment is non-empty; `return <rets>` is last, once; every later line is at least one level deeper |
| Cls.AddMemVal | src/pygen.cpp:97-99 | the value goes last in the member list and nothing else changes |
| Cls.AddMemVals | src/pygen.cpp:101-103 | every value goes last in the order given, and nothing else changes |
| Cls.AddMemFunc | src/pygen.cpp:85-95 | the function, with a bare `self` put in front of its parameters and rendered one level deeper than the class, is appended with a trailing newline after the earlier member functions; members, name, docstring and indent are unchanged |
| Cls.StatementLines | src/pygen.cpp:114-117 | one-line statements render as those lines, in order, at the body's depth |
| Cls.InitFuncLines | src/pygen.cpp:111-118 | the synthesized constructor is `def __init__(<members>) -> None:`, then `self.f = f` one level deeper for every member after the receiver in declaration order, then `return ` with an empty expression |
| Cls.Generate | src/pygen.cpp:105-123 | a class renders as `class <name>:`, the docstring line only for a non-empty comment, the constructor one level deeper, a newline, then the member-function text |
| Cls.FieldsMaterializeAtRender | src/pygen.cpp:97-123 | declaring a member before or after a member function leaves the class in the same state: members are only rendered by `generate` |
| Cls.ApplyClassOpEffect | src/pygen.cpp:85-103 | one call on a class adds its members to the end of the member list and its member-function text to the end of the class's text |
| Cls.ApplyClassOpsEffect | src/pygen.cpp:85-103 | after a class callback, the member list is the receiver and then every declared member in call order, the text is every declared member function in call order, and name, docstring and indent are unchanged |
| Cls.ClassLayout | src/pygen.cpp:53-56 | a class added to a document renders with a constructor taking the receiver and every declared member, followed by the member functions in declaration order |
| Document.ImportFrom | src/pygen.cpp:68-75 | `import(lib, mods)` adds one header line and changes nothing else |
| Document.ImportFromRoundTrip | src/pygen.cpp:68-75 | that line is `from <lib> import ` followed by the modules; when no module contains ", " and the last one is non-empty, splitting them at ", " gives back the caller's list in order |
| Document.Import | src/pygen.cpp:77-79 | `import(lib)` adds the one header line `import <lib>` and changes nothing else |
| Document.Expr | src/pygen.cpp:81-83 | `expr(e)` adds `e` verbatim as one header line and changes nothing else |
| Document.AddClass | src/pygen.cpp:53-56 | the class goes after the earlier classes, at indent 0, with the receiver and then the declared members, and the declared member functions as its text; header, globals and functions are unchanged |
| Document.AddFuncs | src/pygen.cpp:59-66 | the function is rendered at once at indent 0 and its text goes after the earlier functions; header, globals and classes are unchanged |
| Document.WriteAddFuncs | src/pygen.cpp:46-51 | adding a function appends exactly its text and a newline to the end of the written document |
| Document.ApplyDocOpEffect | src/pygen.cpp:53-83 | one call on a document grows the header by that call's line, or appends one class, or appends one rendered function |
| Document.BuildState | src/pygen.cpp:53-83 | after any interleaving of calls, the header holds the import and expression lines at depth 0 in call order, the globals stay empty, and classes and functions are each kept in call order |
| Document.DocumentLayout | src/pygen.cpp:46-51 | the written text is the header, a newline, the empty globals, a newline, then every class and every function, each followed by a newline; classes come before functions whatever order they were added in |
| Scenarios.AddFunction | test/test.cpp:12-15 | `add(a:int, b:int) -> int` with its docstring, `s = a+b` and `return s`, each line at its depth |
| Scenarios.MainFunction | test/test.cpp:6-11 | `main() -> None` with its docstring, a statement, a `for` loop over `range(1, 10)` whose body is one level deeper, and `return ` |
| Scenarios.DevConstructor | test/test.cpp:16-17 | the `Dev` class's constructor is `def __init__(self, name:str) -> None:`, `self.name = name` and `return ` |
| Scenarios.IfChain | src/pygen.cpp:143-191 | an `if`/`elif`/`else` chain puts its three headers at the same depth, each followed by its body one level deeper |

## Left out

- The file stream. `PyFile::write` sends its text to a `std::ofstream`. The model stops at the text (`Document.Write`). Opening the file and the `PyFile` constructor and destructor are not part of this model.
- The `fmt` library. `fmt::format` and `fmt::join` are written out as concatenation and `Join`; format strings are not parsed.
- C++ lifetime mechanics:
  - the `ctxs.emplace_back` / `back()` reference, which a later reallocation invalidates (src/pygen.cpp:149-150, 189-190);
  - the shared `code` pointers;
  - the deleted move constructor (include/pygen.hpp:45).

  A chain context is the same `Ctx` value threaded on.
- Callbacks as such. A body is the statement tree its callback would write, and a class or document callback is its sequence of calls.
- Integer widths. The indent is a `uint32_t` and the `range` bounds are `int` in the source; the model uses unbounded naturals and integers, since no realistic nesting or bound reaches the limits.
- `statment(val, expr)` (include/pygen.hpp:65) is an empty stub in the stale header, with no definition and no caller in src/pygen.cpp, so its rendering cannot be read from the code and it is not modelled.
- `Strings.Split` requires a non-empty separator. With an empty one, the source's loop finds the separator at the same position forever and never terminates.
- Document.ImportFromRoundTrip: splitting the module list back assumes no module contains ", " and the last one is non-empty; lists such as `["Dict, Any"]` or `["List", ""]` are rendered all the same but do not split back. `Document.ImportFrom` states the rendered line for every input.
- Context.WriteLine: text with embedded line breaks is written as one piece, so only its first physical line is indented. Nothing in src/pygen.cpp splits the argument of `writeLine` (`details::Split` has no caller). `Body.PhysicalLinesIndented` therefore assumes no text holds a line break.
- Values.ParseParamsRoundTrip: the round trip assumes no parameter text contains ", ". A type such as `Dict[str, int]` is rendered like any other, but its list cannot be split back; `Values.ParseParamsSnoc` states the rendering for every input.
- Values.ReturnArity: the split of `Tuple[…]` and `(…)` assumes no type or name contains ",", as `Tuple[int,int]` would. `Values.ReturnsSnoc` states the rendering for every input.
- `Context.Generate`: `generate()` on a body or chain context returns the buffer unchanged. In the model it is a pure function, so idempotence and non-mutation hold by construction and no contract states them.
- The stale header declarations of `func_ctx`, `cls_ctx` and `initFunc` (include/pygen.hpp:130-176) conflict with src and are not modelled.
- `Cls.Generate` writes the `class` line and its docstring without the class's own indent, as the source does. Classes are only ever created at indent 0, so the model does not use other indents.
- `elseCtx` (include/pygen.hpp:117) is an empty stub in the stale header and has no definition in src/pygen.cpp. `Body.ElseCtx` models the behaviour its doc comment and `elifCtx` suggest.

## Findings

| source | as written | input that shows it | evidently intended | confidence | as-written member | corrected member |
|---|---|---|---|---|---|---|
| include/pygen.hpp:37-43 | `writeLine` streams the indentation and the line into a local `std::ostringstream` constructed from a copy of `code`, so `code` itself never changes | any context, any line: the buffer is the same before and after `writeLine("x")` | append `4 * indent` spaces, the line and a newline to `code` | high, not executed (the header is stale against src, where `code` is a shared pointer) | Context.WriteLineAsWrittenLosesLines | Context.WriteLineExact |
