/**
 * `PyVal` (include/pygen.hpp:13-20) and the signature helpers `parseParams`,
 * `getRetsType` and `getRets` (src/pygen.cpp:8-44).
 */
module Values {
  import opened Strings

  /** A named, typed slot: a parameter, a return value or a class member. No validation. */
  datatype PyVal = PyVal(name: string, typ: string)

  /** The receiver parameter `addMemFunc` prepends and a class's member list starts with. */
  const Receiver: PyVal := PyVal("self", "")

  /** One parameter as `parseParams` writes it: `self` bare, anything else `name:type`. */
  function ParamText(p: PyVal): string
  {
    if p.name == "self" then "self" else p.name + ":" + p.typ
  }

  function ParamTexts(params: seq<PyVal>): seq<string>
  {
    seq(|params|, i requires 0 <= i < |params| => ParamText(params[i]))
  }

  function Names(vals: seq<PyVal>): seq<string>
  {
    seq(|vals|, i requires 0 <= i < |vals| => vals[i].name)
  }

  function Types(vals: seq<PyVal>): seq<string>
  {
    seq(|vals|, i requires 0 <= i < |vals| => vals[i].typ)
  }

  /** `parseParams`: the parameter list between the parentheses of a `def` line. */
  function ParseParams(params: seq<PyVal>): string
  {
    Join(ParamTexts(params), ", ")
  }

  /** `getRetsType`: the annotation after `->`. */
  function GetRetsType(rets: seq<PyVal>): string
  {
    if |rets| == 0 then "None"
    else if |rets| == 1 then rets[0].typ
    else "Tuple[" + Join(Types(rets), ",") + "]"
  }

  /** `getRets`: the expression after `return`. */
  function GetRets(rets: seq<PyVal>): string
  {
    if |rets| == 0 then ""
    else if |rets| == 1 then rets[0].name
    else "(" + Join(Names(rets), ",") + ")"
  }

  /**
   * The parameter list for one more parameter, whatever the texts hold: the
   * earlier list, ", " unless it was empty, then the new parameter as
   * `parseParams` writes it.
   */
  lemma {:induction false} ParseParamsSnoc(params: seq<PyVal>, p: PyVal)
    ensures ParseParams(params + [p])
         == ParseParams(params) + (if params == [] then "" else ", ")
            + (if p.name == "self" then "self" else p.name + ":" + p.typ)
  {
    assert ParamTexts(params + [p]) == ParamTexts(params) + [ParamText(p)];
    JoinSnoc(ParamTexts(params), ", ", ParamText(p));
  }

  /**
   * Returning one more value, whatever the texts hold: a lone value is its
   * own type and name; after at least one earlier value the annotation is
   * `Tuple[…]` over the earlier types, a comma and the new type, and the
   * expression is `(…)` over the earlier names, a comma and the new name.
   */
  lemma {:induction false} ReturnsSnoc(rets: seq<PyVal>, v: PyVal)
    ensures rets == [] ==> GetRetsType(rets + [v]) == v.typ && GetRets(rets + [v]) == v.name
    ensures rets != [] ==> GetRetsType(rets + [v]) == "Tuple[" + Join(Types(rets), ",") + "," + v.typ + "]"
    ensures rets != [] ==> GetRets(rets + [v]) == "(" + Join(Names(rets), ",") + "," + v.name + ")"
  {
    assert Types(rets + [v]) == Types(rets) + [v.typ];
    assert Names(rets + [v]) == Names(rets) + [v.name];
    JoinSnoc(Types(rets), ",", v.typ);
    JoinSnoc(Names(rets), ",", v.name);
  }

  /** Pieces that `Split(…, ",")` can recover from their comma-join. */
  predicate CommaFree(parts: seq<string>)
  {
    && (forall i :: 0 <= i < |parts| ==> !Contains(parts[i], ","))
    && (parts != [] ==> parts[|parts| - 1] != "")
  }

  /**
   * Splitting the parameter list at ", " gives back one piece per parameter,
   * in order: the bare `self` for a parameter named `self`, `name:type` with no
   * space otherwise; no parameters give the empty string.
   */
  lemma {:induction false} ParseParamsRoundTrip(params: seq<PyVal>)
    requires forall i :: 0 <= i < |params| ==> !Contains(ParamText(params[i]), ", ")
    ensures params == [] ==> ParseParams(params) == ""
    ensures |SplitRef(ParseParams(params), ", ")| == |params|
    ensures forall i :: 0 <= i < |params| ==>
              SplitRef(ParseParams(params), ", ")[i] ==
                if params[i].name == "self" then "self" else params[i].name + ":" + params[i].typ
  {
    CommaSpaceBorderless();
    SplitJoinRoundTrip(ParamTexts(params), ", ");
  }

  /** Prepending the receiver puts a bare `self` in front of the rendered list. */
  lemma {:induction false} ReceiverFirst(params: seq<PyVal>)
    ensures ParseParams([Receiver] + params) ==
              "self" + (if params == [] then "" else ", " + ParseParams(params))
  {
    assert ParamTexts([Receiver] + params)[1..] == ParamTexts(params);
  }

  /**
   * The annotation and the return expression branch on the same arity: none
   * gives `None` and the empty expression, one gives that value's type and
   * name, several give `Tuple[t1,…,tn]` and `(n1,…,nn)` whose comma-separated
   * contents are the types and the names in declared order.
   */
  lemma {:induction false} ReturnArity(rets: seq<PyVal>)
    requires |rets| >= 2 ==> CommaFree(Types(rets)) && CommaFree(Names(rets))
    ensures |rets| == 0 ==> GetRetsType(rets) == "None" && GetRets(rets) == ""
    ensures |rets| == 1 ==> GetRetsType(rets) == rets[0].typ && GetRets(rets) == rets[0].name
    ensures |rets| >= 2 ==>
              var t := GetRetsType(rets);
              |t| >= 7 && t[..6] == "Tuple[" && t[|t| - 1] == ']'
              && SplitRef(t[6..|t| - 1], ",") == Types(rets)
    ensures |rets| >= 2 ==>
              var e := GetRets(rets);
              |e| >= 2 && e[0] == '(' && e[|e| - 1] == ')'
              && SplitRef(e[1..|e| - 1], ",") == Names(rets)
  {
    if |rets| >= 2 {
      var t := GetRetsType(rets);
      var e := GetRets(rets);
      SplitJoinRoundTrip(Types(rets), ",");
      SplitJoinRoundTrip(Names(rets), ",");
      assert t[6..|t| - 1] == Join(Types(rets), ",");
      assert e[1..|e| - 1] == Join(Names(rets), ",");
    }
  }
}
