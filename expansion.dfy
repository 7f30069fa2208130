/** The meaning of transclusion, as pure functions: `ExpandSeq` is what
    `Transcluder.transform` does to a list, `Expand` what it does to one
    node, and each `Expand<Macro>` is one `_transclude_<name>` handler.
    `fuel` bounds the depth of template inclusion; the source has no such
    guard, so running out of it is reported as `DepthExceeded`. */
module Expansion {
  import opened Ast
  import opened PyStrings

  /** Expands a list left to right: a spliced piece contributes all of its
      nodes at that position, a single piece exactly one element. The
      first failure, in document order, is the result. */
  function ExpandSeq(api: Api, s: NodeList, vars: Vars, page: Option<Page>, fuel: nat): (r: Result<NodeList>)
    decreases fuel, s, 0
  {
    if s == [] then Ok([])
    else
      var piece :- Expand(api, s[0], vars, page, fuel);
      var rest :- ExpandSeq(api, s[1..], vars, page, fuel);
      Ok(Contribution(piece) + rest)
  }

  /** Expands one node: macros go to their handler, leaves are kept, and
      any other node keeps its tag and gets its children expanded. */
  function Expand(api: Api, n: Node, vars: Vars, page: Option<Page>, fuel: nat): (r: Result<Piece>)
    decreases fuel, n, 1
    ensures r.Ok? ==> (r.value.Splice? <==> IsSpliceMacro(n))
    ensures r.Ok? && n.Invoke? ==> r.value.node.Str?
  {
    match n
    case Text(_) => Ok(Single(n))
    case Str(_) => Ok(Single(n))
    case Template(_, _, _) => ExpandTemplate(api, n, vars, page, fuel)
    case Variable(_, _) => Ok(ExpandVariable(api, n, vars))
    case If(_, _, _) => ExpandIf(api, n, vars, page, fuel)
    case IfEq(_, _, _, _) => ExpandIfEq(api, n, vars, page, fuel)
    case IfExist(_, _, _) => ExpandIfExist(api, n, vars, page, fuel)
    case Switch(_, _) => ExpandSwitch(api, n, vars, page, fuel)
    case Invoke(_, _, _, _) => ExpandInvoke(api, n, vars, page, fuel)
    case SwitchBranch(cmp, result) =>
      var cmp' :- ExpandSeq(api, cmp, vars, page, fuel);
      var result' :- ExpandSeq(api, result, vars, page, fuel);
      Ok(Single(SwitchBranch(cmp', result')))
    case PosArg(value) =>
      var value' :- ExpandSeq(api, value, vars, page, fuel);
      Ok(Single(PosArg(value')))
    case NamedArg(key, value) =>
      var key' :- ExpandSeq(api, key, vars, page, fuel);
      var value' :- ExpandSeq(api, value, vars, page, fuel);
      Ok(Single(NamedArg(key', value')))
    case Other(tag, children) =>
      var children' :- ExpandSeq(api, children, vars, page, fuel);
      Ok(Single(Other(tag, children')))
  }

  /** `_transclude_template`: the body is expanded under a fresh table
      built from this call's expanded arguments only, and then filtered for
      the page it is included into. */
  function ExpandTemplate(api: Api, tpl: Node, vars: Vars, page: Option<Page>, fuel: nat): (r: Result<Piece>)
    requires tpl.Template?
    decreases fuel, tpl, 0
    ensures r.Ok? ==> r.value.Splice?
    ensures fuel == 0 ==> r.Err?
  {
    var name :- ExpandSeq(api, tpl.name, vars, page, fuel);
    var posArgs :- ExpandSeq(api, tpl.posArgs, vars, page, fuel);
    var namedArgs :- ExpandSeq(api, tpl.namedArgs, vars, page, fuel);
    var tplPage :- api.fetchTemplate(api.renderId(name));
    if fuel == 0 then Err(DepthExceeded)
    else
      var body :- ExpandSeq(api, tplPage.body, api.makeVars(posArgs, namedArgs), Some(tplPage), fuel - 1);
      Ok(Splice(api.inclusion(body, page)))
  }

  /** The nodes a variable reference stands for: its binding in the
      current table, else its default, else nothing. */
  function Lookup(vars: Vars, key: string, default: Option<NodeList>): NodeList {
    if key in vars then vars[key]
    else match default
      case Some(d) => d
      case None => []
  }

  /** `_transclude_variable`: the name is identified as written (it is not
      expanded first) and the bound nodes are spliced as they are. */
  function ExpandVariable(api: Api, v: Node, vars: Vars): (r: Piece)
    requires v.Variable?
    ensures r.Splice?
  {
    Splice(Lookup(vars, api.renderId(v.name), v.default))
  }

  /** `_transclude_if`: the true branch iff the rendered condition is not
      blank once stripped. */
  function ExpandIf(api: Api, n: Node, vars: Vars, page: Option<Page>, fuel: nat): (r: Result<Piece>)
    requires n.If?
    decreases fuel, n, 0
    ensures r.Ok? ==> r.value.Splice?
  {
    var cond :- ExpandSeq(api, n.cond, vars, page, fuel);
    var whenTrue :- ExpandSeq(api, n.whenTrue, vars, page, fuel);
    var whenFalse :- ExpandSeq(api, n.whenFalse, vars, page, fuel);
    Ok(Splice(if Strip(api.render(cond)) != "" then whenTrue else whenFalse))
  }

  /** `_transclude_ifeq`: the true branch iff both sides render to the same
      text once stripped. */
  function ExpandIfEq(api: Api, n: Node, vars: Vars, page: Option<Page>, fuel: nat): (r: Result<Piece>)
    requires n.IfEq?
    decreases fuel, n, 0
    ensures r.Ok? ==> r.value.Splice?
  {
    var lhs :- ExpandSeq(api, n.lhs, vars, page, fuel);
    var rhs :- ExpandSeq(api, n.rhs, vars, page, fuel);
    var whenTrue :- ExpandSeq(api, n.whenTrue, vars, page, fuel);
    var whenFalse :- ExpandSeq(api, n.whenFalse, vars, page, fuel);
    Ok(Splice(if Strip(api.render(lhs)) == Strip(api.render(rhs)) then whenTrue else whenFalse))
  }

  /** `_transclude_ifexist`: the true branch iff the page named by the
      rendered (unstripped) target exists. */
  function ExpandIfExist(api: Api, n: Node, vars: Vars, page: Option<Page>, fuel: nat): (r: Result<Piece>)
    requires n.IfExist?
    decreases fuel, n, 0
    ensures r.Ok? ==> r.value.Splice?
  {
    var target :- ExpandSeq(api, n.target, vars, page, fuel);
    var whenTrue :- ExpandSeq(api, n.whenTrue, vars, page, fuel);
    var whenFalse :- ExpandSeq(api, n.whenFalse, vars, page, fuel);
    var found :- api.pageExists(api.render(target));
    Ok(Splice(if found then whenTrue else whenFalse))
  }

  /** How `make_switch_map` keys a branch: its rendered match value,
      stripped. */
  function SwitchKey(api: Api): NodeList -> string {
    cmp => Strip(api.render(cmp))
  }

  /** Elements whose children unpack into exactly two node lists, as the
      assignment `cmp, val = branch.children` demands: a switch branch, or
      a named argument. */
  predicate IsPair(n: Node) {
    n.SwitchBranch? || n.NamedArg?
  }

  /** The first of the two child lists: the match value. */
  function PairKey(n: Node): NodeList
    requires IsPair(n)
  {
    if n.SwitchBranch? then n.cmp else n.key
  }

  /** The second of the two child lists: the result. */
  function PairValue(n: Node): NodeList
    requires IsPair(n)
  {
    if n.SwitchBranch? then n.result else n.value
  }

  /** The key a switch branch is filed under. */
  function BranchKey(key: NodeList -> string, branch: Node): string
    requires IsPair(branch)
  {
    key(PairKey(branch))
  }

  /** `make_switch_map`: branches filed by key in document order, a later
      branch overwriting an earlier one with the same key. An element whose
      children are not two node lists is malformed. */
  function SwitchMap(key: NodeList -> string, branches: NodeList): (r: Result<map<string, NodeList>>)
    decreases |branches|
  {
    if branches == [] then Ok(map[])
    else
      var res :- SwitchMap(key, branches[..|branches| - 1]);
      var branch := branches[|branches| - 1];
      if IsPair(branch) then Ok(res[BranchKey(key, branch) := PairValue(branch)])
      else Err(Malformed)
  }

  /** The branch a switch selects: the discriminant's own entry, else the
      `#default` entry, else nothing. */
  function SwitchChoice(branches: map<string, NodeList>, key: string): NodeList {
    if key in branches then branches[key]
    else if "#default" in branches then branches["#default"]
    else []
  }

  /** `_transclude_switch`. */
  function ExpandSwitch(api: Api, n: Node, vars: Vars, page: Option<Page>, fuel: nat): (r: Result<Piece>)
    requires n.Switch?
    decreases fuel, n, 0
    ensures r.Ok? ==> r.value.Splice?
  {
    var value :- ExpandSeq(api, n.value, vars, page, fuel);
    var branches :- ExpandSeq(api, n.branches, vars, page, fuel);
    var table :- SwitchMap(SwitchKey(api), branches);
    Ok(Splice(SwitchChoice(table, Strip(api.render(value)))))
  }

  /** `_transclude_invoke`: the module's answer is one bare string, never
      spliced, whatever its text. */
  function ExpandInvoke(api: Api, n: Node, vars: Vars, page: Option<Page>, fuel: nat): (r: Result<Piece>)
    requires n.Invoke?
    decreases fuel, n, 0
    ensures r.Ok? ==> r.value.Single? && r.value.node.Str?
  {
    var mod :- ExpandSeq(api, n.mod, vars, page, fuel);
    var fn :- ExpandSeq(api, n.fn, vars, page, fuel);
    var posArgs :- ExpandSeq(api, n.posArgs, vars, page, fuel);
    var namedArgs :- ExpandSeq(api, n.namedArgs, vars, page, fuel);
    var text :- api.invoke(Strip(api.renderId(mod)), Strip(api.renderId(fn)), api.makeVars(posArgs, namedArgs));
    Ok(Single(Str(text)))
  }
}
