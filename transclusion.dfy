/** The transcluder as the program runs it: a `Transcluder` object holding
    its api, whose `Transform` walks a node list left to right and hands
    each macro node to its `Transclude<Name>` handler. Every method is
    proved to compute exactly the corresponding function of `Expansion`,
    so everything proved in `ExpansionProperties` holds of it. */
module Transclusion {
  import opened Ast
  import opened PyStrings
  import opened Expansion
  import opened ExpansionProperties

  class Transcluder {
    const api: Api

    constructor(api: Api)
      ensures this.api == api
    {
      this.api := api;
    }

    /** `transform` on a list: each node is transformed in order; a spliced
        result is inlined, any other result appended as one element. */
    method Transform(ast: NodeList, vars: Vars, page: Option<Page>, fuel: nat) returns (r: Result<NodeList>)
      ensures r == ExpandSeq(api, ast, vars, page, fuel)
      decreases fuel, ast, 0
    {
      var result: NodeList := [];
      var i := 0;
      while i < |ast|
        invariant 0 <= i <= |ast|
        invariant ExpandSeq(api, ast[..i], vars, page, fuel) == Ok(result)
      {
        var transcluded := TransformNode(ast[i], vars, page, fuel);
        ExpandSeqAppend(api, ast[..i], [ast[i]], vars, page, fuel);
        ExpandSeqSingleton(api, ast[i], vars, page, fuel);
        assert ast[..i] + [ast[i]] == ast[..i + 1];
        match transcluded {
          case Err(e) =>
            ExpandSeqAppend(api, ast[..i + 1], ast[i + 1..], vars, page, fuel);
            assert ast[..i + 1] + ast[i + 1..] == ast;
            return Err(e);
          case Ok(Splice(nodes)) => result := result + nodes;
          case Ok(Single(node)) => result := result + [node];
        }
        i := i + 1;
      }
      assert ast[..i] == ast;
      r := Ok(result);
    }

    /** `transform` on one node: a node with a handler goes to it, leaves
        are returned as they are, and any other node gets its children
        transformed. */
    method TransformNode(node: Node, vars: Vars, page: Option<Page>, fuel: nat) returns (r: Result<Piece>)
      ensures r == Expand(api, node, vars, page, fuel)
      decreases fuel, node, 1
    {
      match node
      case Text(_) => r := Ok(Single(node));
      case Str(_) => r := Ok(Single(node));
      case Template(_, _, _) => r := TranscludeTemplate(node, vars, page, fuel);
      case Variable(_, _) =>
        var piece := TranscludeVariable(node, vars);
        r := Ok(piece);
      case If(_, _, _) => r := TranscludeIf(node, vars, page, fuel);
      case IfEq(_, _, _, _) => r := TranscludeIfEq(node, vars, page, fuel);
      case IfExist(_, _, _) => r := TranscludeIfExist(node, vars, page, fuel);
      case Switch(_, _) => r := TranscludeSwitch(node, vars, page, fuel);
      case Invoke(_, _, _, _) => r := TranscludeInvoke(node, vars, page, fuel);
      case SwitchBranch(cmp, result) =>
        var cmp' :- Transform(cmp, vars, page, fuel);
        var result' :- Transform(result, vars, page, fuel);
        r := Ok(Single(SwitchBranch(cmp', result')));
      case PosArg(value) =>
        var value' :- Transform(value, vars, page, fuel);
        r := Ok(Single(PosArg(value')));
      case NamedArg(key, value) =>
        var key' :- Transform(key, vars, page, fuel);
        var value' :- Transform(value, vars, page, fuel);
        r := Ok(Single(NamedArg(key', value')));
      case Other(tag, children) =>
        var children' :- Transform(children, vars, page, fuel);
        r := Ok(Single(Other(tag, children')));
    }

    /** `_transclude_template`. */
    method TranscludeTemplate(tpl: Node, vars: Vars, page: Option<Page>, fuel: nat) returns (r: Result<Piece>)
      requires tpl.Template?
      ensures r == ExpandTemplate(api, tpl, vars, page, fuel)
      decreases fuel, tpl, 0
    {
      var name :- Transform(tpl.name, vars, page, fuel);
      var posArgs :- Transform(tpl.posArgs, vars, page, fuel);
      var namedArgs :- Transform(tpl.namedArgs, vars, page, fuel);
      var tplPage :- api.fetchTemplate(api.renderId(name));
      if fuel == 0 {
        return Err(DepthExceeded);
      }
      var body :- Transform(tplPage.body, api.makeVars(posArgs, namedArgs), Some(tplPage), fuel - 1);
      r := Ok(Splice(api.inclusion(body, page)));
    }

    /** `_transclude_variable`. */
    method TranscludeVariable(v: Node, vars: Vars) returns (r: Piece)
      requires v.Variable?
      ensures r == ExpandVariable(api, v, vars)
    {
      var name := api.renderId(v.name);
      if name in vars {
        r := Splice(vars[name]);
      } else if v.default.Some? {
        r := Splice(v.default.value);
      } else {
        r := Splice([]);
      }
    }

    /** `_transclude_if`. */
    method TranscludeIf(n: Node, vars: Vars, page: Option<Page>, fuel: nat) returns (r: Result<Piece>)
      requires n.If?
      ensures r == ExpandIf(api, n, vars, page, fuel)
      decreases fuel, n, 0
    {
      var cond :- Transform(n.cond, vars, page, fuel);
      var whenTrue :- Transform(n.whenTrue, vars, page, fuel);
      var whenFalse :- Transform(n.whenFalse, vars, page, fuel);
      if Strip(api.render(cond)) != "" {
        r := Ok(Splice(whenTrue));
      } else {
        r := Ok(Splice(whenFalse));
      }
    }

    /** `_transclude_ifeq`. */
    method TranscludeIfEq(n: Node, vars: Vars, page: Option<Page>, fuel: nat) returns (r: Result<Piece>)
      requires n.IfEq?
      ensures r == ExpandIfEq(api, n, vars, page, fuel)
      decreases fuel, n, 0
    {
      var lhs :- Transform(n.lhs, vars, page, fuel);
      var rhs :- Transform(n.rhs, vars, page, fuel);
      var whenTrue :- Transform(n.whenTrue, vars, page, fuel);
      var whenFalse :- Transform(n.whenFalse, vars, page, fuel);
      var left := api.render(lhs);
      var right := api.render(rhs);
      if Strip(left) == Strip(right) {
        r := Ok(Splice(whenTrue));
      } else {
        r := Ok(Splice(whenFalse));
      }
    }

    /** `_transclude_ifexist`. */
    method TranscludeIfExist(n: Node, vars: Vars, page: Option<Page>, fuel: nat) returns (r: Result<Piece>)
      requires n.IfExist?
      ensures r == ExpandIfExist(api, n, vars, page, fuel)
      decreases fuel, n, 0
    {
      var target :- Transform(n.target, vars, page, fuel);
      var whenTrue :- Transform(n.whenTrue, vars, page, fuel);
      var whenFalse :- Transform(n.whenFalse, vars, page, fuel);
      var found :- api.pageExists(api.render(target));
      if found {
        r := Ok(Splice(whenTrue));
      } else {
        r := Ok(Splice(whenFalse));
      }
    }

    /** `_transclude_switch`. */
    method TranscludeSwitch(n: Node, vars: Vars, page: Option<Page>, fuel: nat) returns (r: Result<Piece>)
      requires n.Switch?
      ensures r == ExpandSwitch(api, n, vars, page, fuel)
      decreases fuel, n, 0
    {
      var value :- Transform(n.value, vars, page, fuel);
      var branches :- Transform(n.branches, vars, page, fuel);
      var key := Strip(api.render(value));
      var table :- MakeSwitchMap(branches);
      if key in table {
        r := Ok(Splice(table[key]));
      } else if "#default" in table {
        r := Ok(Splice(table["#default"]));
      } else {
        r := Ok(Splice([]));
      }
    }

    /** `_transclude_invoke`: the module's answer is appended as one bare
        string. */
    method TranscludeInvoke(n: Node, vars: Vars, page: Option<Page>, fuel: nat) returns (r: Result<Piece>)
      requires n.Invoke?
      ensures r == ExpandInvoke(api, n, vars, page, fuel)
      decreases fuel, n, 0
    {
      var mod :- Transform(n.mod, vars, page, fuel);
      var fn :- Transform(n.fn, vars, page, fuel);
      var posArgs :- Transform(n.posArgs, vars, page, fuel);
      var namedArgs :- Transform(n.namedArgs, vars, page, fuel);
      var modName := Strip(api.renderId(mod));
      var fnName := Strip(api.renderId(fn));
      var text :- api.invoke(modName, fnName, api.makeVars(posArgs, namedArgs));
      r := Ok(Single(Str(text)));
    }

    /** `make_switch_map`: files each branch's result under its stripped,
        rendered match value, in order, so a later duplicate overwrites an
        earlier one. An element whose children are not two node lists is
        malformed. */
    method MakeSwitchMap(branches: NodeList) returns (r: Result<map<string, NodeList>>)
      ensures r == SwitchMap(SwitchKey(api), branches)
    {
      var res: map<string, NodeList> := map[];
      var i := 0;
      while i < |branches|
        invariant 0 <= i <= |branches|
        invariant SwitchMap(SwitchKey(api), branches[..i]) == Ok(res)
      {
        var branch := branches[i];
        var prefix := branches[..i + 1];
        assert prefix[..i] == branches[..i] && prefix[i] == branch;
        if !IsPair(branch) {
          SwitchMapOk(SwitchKey(api), branches);
          return Err(Malformed);
        }
        var cmp, val := PairKey(branch), PairValue(branch);
        assert SwitchMap(SwitchKey(api), prefix) == Ok(res[BranchKey(SwitchKey(api), branch) := val]);
        res := res[Strip(api.render(cmp)) := val];
        i := i + 1;
      }
      assert branches[..i] == branches;
      r := Ok(res);
    }
  }
}
