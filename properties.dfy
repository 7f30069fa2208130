/** What the transcluder promises, proved about the functions of
    `Expansion`: identity on macro-free input, in-order splicing, the
    pass-through of unhandled nodes, dynamic scope replacement, the rules
    of the parser functions, and full expansion. */
module ExpansionProperties {
  import opened Ast
  import opened PyStrings
  import opened Expansion

  /** Concatenation of two list expansions, the first failure winning. */
  function Concat(a: Result<NodeList>, b: Result<NodeList>): Result<NodeList> {
    match a
    case Err(e) => Err(e)
    case Ok(x) =>
      match b
      case Err(e) => Err(e)
      case Ok(y) => Ok(x + y)
  }

  /** Expansion distributes over concatenation: the output is the in-order
      concatenation of the outputs of the parts, and a failure in an
      earlier part hides everything after it. */
  lemma {:induction false} ExpandSeqAppend(api: Api, a: NodeList, b: NodeList, vars: Vars, page: Option<Page>, fuel: nat)
    ensures ExpandSeq(api, a + b, vars, page, fuel)
         == Concat(ExpandSeq(api, a, vars, page, fuel), ExpandSeq(api, b, vars, page, fuel))
    decreases a
  {
    if a == [] {
      assert a + b == b;
      match ExpandSeq(api, b, vars, page, fuel)
      case Err(_) =>
      case Ok(y) => assert [] + y == y;
    } else {
      assert (a + b)[0] == a[0];
      assert (a + b)[1..] == a[1..] + b;
      ExpandSeqAppend(api, a[1..], b, vars, page, fuel);
      match Expand(api, a[0], vars, page, fuel)
      case Err(_) =>
      case Ok(piece) =>
        match ExpandSeq(api, a[1..], vars, page, fuel)
        case Err(_) =>
        case Ok(x) =>
          match ExpandSeq(api, b, vars, page, fuel)
          case Err(_) =>
          case Ok(y) =>
            assert Contribution(piece) + (x + y) == (Contribution(piece) + x) + y;
    }
  }

  /** A one-element list expands to what its element contributes. */
  lemma ExpandSeqSingleton(api: Api, n: Node, vars: Vars, page: Option<Page>, fuel: nat)
    ensures ExpandSeq(api, [n], vars, page, fuel)
         == match Expand(api, n, vars, page, fuel)
            case Ok(piece) => Ok(Contribution(piece))
            case Err(e) => Err(e)
  {
    assert [n][0] == n;
    assert [n][1..] == [];
    assert ExpandSeq(api, [n][1..], vars, page, fuel) == Ok([]);
    match Expand(api, n, vars, page, fuel)
    case Err(_) =>
    case Ok(piece) => assert Contribution(piece) + [] == Contribution(piece);
  }

  /** A list fails exactly when one of its elements does, and then with the
      failure of the first element that fails. */
  lemma {:induction false} ExpandSeqFirstFailure(api: Api, s: NodeList, vars: Vars, page: Option<Page>, fuel: nat)
    ensures ExpandSeq(api, s, vars, page, fuel).Err?
        <==> exists i :: 0 <= i < |s| && Expand(api, s[i], vars, page, fuel).Err?
    ensures forall i :: 0 <= i < |s| && Expand(api, s[i], vars, page, fuel).Err?
                     && (forall j :: 0 <= j < i ==> Expand(api, s[j], vars, page, fuel).Ok?)
                     ==> ExpandSeq(api, s, vars, page, fuel) == Err(Expand(api, s[i], vars, page, fuel).error)
    decreases s
  {
    if s != [] {
      ExpandSeqFirstFailure(api, s[1..], vars, page, fuel);
      forall i | 0 < i < |s| ensures s[1..][i - 1] == s[i] { }
      if Expand(api, s[0], vars, page, fuel).Ok? && ExpandSeq(api, s[1..], vars, page, fuel).Err? {
        var i :| 0 <= i < |s[1..]| && Expand(api, s[1..][i], vars, page, fuel).Err?;
        assert Expand(api, s[i + 1], vars, page, fuel).Err?;
      }
    }
  }

  /** Nodes every handler leaves alone: leaves, and nodes without a
      handler whose children are all of this kind. */
  predicate Expanded(n: Node)
    decreases n
  {
    match n
    case Text(_) => true
    case Str(_) => true
    case SwitchBranch(cmp, result) => AllExpanded(cmp) && AllExpanded(result)
    case PosArg(value) => AllExpanded(value)
    case NamedArg(key, value) => AllExpanded(key) && AllExpanded(value)
    case Other(_, children) => AllExpanded(children)
    case _ => false
  }

  predicate AllExpanded(s: NodeList)
    decreases s
  {
    forall i :: 0 <= i < |s| ==> Expanded(s[i])
  }

  /** Identity: a list with no macro node anywhere comes back unchanged,
      element for element. */
  lemma {:induction false} ExpandSeqIdentity(api: Api, s: NodeList, vars: Vars, page: Option<Page>, fuel: nat)
    requires AllExpanded(s)
    ensures ExpandSeq(api, s, vars, page, fuel) == Ok(s)
    decreases s, 0
  {
    if s != [] {
      ExpandIdentity(api, s[0], vars, page, fuel);
      ExpandSeqIdentity(api, s[1..], vars, page, fuel);
      assert [s[0]] + s[1..] == s;
    }
  }

  lemma {:induction false} ExpandIdentity(api: Api, n: Node, vars: Vars, page: Option<Page>, fuel: nat)
    requires Expanded(n)
    ensures Expand(api, n, vars, page, fuel) == Ok(Single(n))
    decreases n, 1
  {
    match n
    case Text(_) =>
    case Str(_) =>
    case SwitchBranch(cmp, result) =>
      ExpandSeqIdentity(api, cmp, vars, page, fuel);
      ExpandSeqIdentity(api, result, vars, page, fuel);
    case PosArg(value) =>
      ExpandSeqIdentity(api, value, vars, page, fuel);
    case NamedArg(key, value) =>
      ExpandSeqIdentity(api, key, vars, page, fuel);
      ExpandSeqIdentity(api, value, vars, page, fuel);
    case Other(_, children) =>
      ExpandSeqIdentity(api, children, vars, page, fuel);
  }

  /** Nodes that have a handler (and so are replaced, not passed through). */
  predicate IsMacro(n: Node) {
    IsSpliceMacro(n) || n.Invoke?
  }

  /** The child lists of a node without a handler, in field order. */
  function Children(n: Node): seq<NodeList>
    requires !IsMacro(n)
  {
    match n
    case Text(_) => []
    case Str(_) => []
    case SwitchBranch(cmp, result) => [cmp, result]
    case PosArg(value) => [value]
    case NamedArg(key, value) => [key, value]
    case Other(_, children) => [children]
  }

  /** Same variant, and the same tag for a generic node. */
  predicate SameKind(a: Node, b: Node) {
    match a
    case Text(x) => b == Text(x)
    case Str(x) => b == Str(x)
    case SwitchBranch(_, _) => b.SwitchBranch?
    case PosArg(_) => b.PosArg?
    case NamedArg(_, _) => b.NamedArg?
    case Other(tag, _) => b.Other? && b.tag == tag
    case _ => false
  }

  /** Pass-through: a node without a handler comes back as one element of
      the same kind and tag, each child list replaced by its expansion and
      nothing else changed; it fails iff one of its child lists does. */
  lemma PassThrough(api: Api, n: Node, vars: Vars, page: Option<Page>, fuel: nat)
    requires !IsMacro(n)
    ensures var cs := Children(n);
      Expand(api, n, vars, page, fuel).Ok?
      <==> forall i :: 0 <= i < |cs| ==> ExpandSeq(api, cs[i], vars, page, fuel).Ok?
    ensures var r := Expand(api, n, vars, page, fuel);
      r.Ok? ==>
        && r.value.Single?
        && SameKind(n, r.value.node)
        && !IsMacro(r.value.node)
        && |Children(r.value.node)| == |Children(n)|
        && forall i :: 0 <= i < |Children(n)|
             ==> Children(r.value.node)[i] == ExpandSeq(api, Children(n)[i], vars, page, fuel).value
  {
    match n
    case Text(_) =>
    case Str(_) =>
    case SwitchBranch(cmp, result) =>
      assert Children(n)[0] == cmp && Children(n)[1] == result;
    case PosArg(value) =>
      assert Children(n)[0] == value;
    case NamedArg(key, value) =>
      assert Children(n)[0] == key && Children(n)[1] == value;
    case Other(_, children) =>
      assert Children(n)[0] == children;
  }

  /** Elements that never splice each contribute exactly one element, in
      their own position. */
  lemma {:induction false} SinglesKeepLength(api: Api, s: NodeList, vars: Vars, page: Option<Page>, fuel: nat)
    requires forall i :: 0 <= i < |s| ==> !IsSpliceMacro(s[i])
    requires ExpandSeq(api, s, vars, page, fuel).Ok?
    ensures |ExpandSeq(api, s, vars, page, fuel).value| == |s|
    ensures forall i :: 0 <= i < |s|
              ==> Expand(api, s[i], vars, page, fuel) == Ok(Single(ExpandSeq(api, s, vars, page, fuel).value[i]))
    decreases s
  {
    if s != [] {
      SinglesKeepLength(api, s[1..], vars, page, fuel);
      var out := ExpandSeq(api, s, vars, page, fuel).value;
      var rest := ExpandSeq(api, s[1..], vars, page, fuel).value;
      assert out == [Expand(api, s[0], vars, page, fuel).value.node] + rest;
      forall i | 0 < i < |s|
        ensures Expand(api, s[i], vars, page, fuel) == Ok(Single(out[i]))
      {
        assert s[1..][i - 1] == s[i];
      }
    }
  }

  /** Nodes that contain no variable reference anywhere. */
  predicate NoVariables(n: Node)
    decreases n
  {
    match n
    case Text(_) => true
    case Str(_) => true
    case Variable(_, _) => false
    case Template(name, posArgs, namedArgs) => AllNoVariables(name) && AllNoVariables(posArgs) && AllNoVariables(namedArgs)
    case If(cond, whenTrue, whenFalse) => AllNoVariables(cond) && AllNoVariables(whenTrue) && AllNoVariables(whenFalse)
    case IfEq(lhs, rhs, whenTrue, whenFalse) =>
      AllNoVariables(lhs) && AllNoVariables(rhs) && AllNoVariables(whenTrue) && AllNoVariables(whenFalse)
    case IfExist(target, whenTrue, whenFalse) => AllNoVariables(target) && AllNoVariables(whenTrue) && AllNoVariables(whenFalse)
    case Switch(value, branches) => AllNoVariables(value) && AllNoVariables(branches)
    case SwitchBranch(cmp, result) => AllNoVariables(cmp) && AllNoVariables(result)
    case PosArg(value) => AllNoVariables(value)
    case NamedArg(key, value) => AllNoVariables(key) && AllNoVariables(value)
    case Invoke(mod, fn, posArgs, namedArgs) =>
      AllNoVariables(mod) && AllNoVariables(fn) && AllNoVariables(posArgs) && AllNoVariables(namedArgs)
    case Other(_, children) => AllNoVariables(children)
  }

  predicate AllNoVariables(s: NodeList)
    decreases s
  {
    forall i :: 0 <= i < |s| ==> NoVariables(s[i])
  }

  /** Dynamic scope: the ambient table is read only by variable references
      written in the tree itself. Template bodies are expanded under their
      own call's table, so nothing a callee does can see the caller's. */
  lemma {:induction false} ExpandSeqIgnoresScope(api: Api, s: NodeList, vars1: Vars, vars2: Vars, page: Option<Page>, fuel: nat)
    requires AllNoVariables(s)
    ensures ExpandSeq(api, s, vars1, page, fuel) == ExpandSeq(api, s, vars2, page, fuel)
    decreases s, 0
  {
    if s != [] {
      ExpandIgnoresScope(api, s[0], vars1, vars2, page, fuel);
      ExpandSeqIgnoresScope(api, s[1..], vars1, vars2, page, fuel);
    }
  }

  lemma {:induction false} ExpandIgnoresScope(api: Api, n: Node, vars1: Vars, vars2: Vars, page: Option<Page>, fuel: nat)
    requires NoVariables(n)
    ensures Expand(api, n, vars1, page, fuel) == Expand(api, n, vars2, page, fuel)
    decreases n, 1
  {
    match n
    case Text(_) =>
    case Str(_) =>
    case Template(name, posArgs, namedArgs) =>
      ExpandSeqIgnoresScope(api, name, vars1, vars2, page, fuel);
      ExpandSeqIgnoresScope(api, posArgs, vars1, vars2, page, fuel);
      ExpandSeqIgnoresScope(api, namedArgs, vars1, vars2, page, fuel);
    case If(cond, whenTrue, whenFalse) =>
      ExpandSeqIgnoresScope(api, cond, vars1, vars2, page, fuel);
      ExpandSeqIgnoresScope(api, whenTrue, vars1, vars2, page, fuel);
      ExpandSeqIgnoresScope(api, whenFalse, vars1, vars2, page, fuel);
    case IfEq(lhs, rhs, whenTrue, whenFalse) =>
      ExpandSeqIgnoresScope(api, lhs, vars1, vars2, page, fuel);
      ExpandSeqIgnoresScope(api, rhs, vars1, vars2, page, fuel);
      ExpandSeqIgnoresScope(api, whenTrue, vars1, vars2, page, fuel);
      ExpandSeqIgnoresScope(api, whenFalse, vars1, vars2, page, fuel);
    case IfExist(target, whenTrue, whenFalse) =>
      ExpandSeqIgnoresScope(api, target, vars1, vars2, page, fuel);
      ExpandSeqIgnoresScope(api, whenTrue, vars1, vars2, page, fuel);
      ExpandSeqIgnoresScope(api, whenFalse, vars1, vars2, page, fuel);
    case Switch(value, branches) =>
      ExpandSeqIgnoresScope(api, value, vars1, vars2, page, fuel);
      ExpandSeqIgnoresScope(api, branches, vars1, vars2, page, fuel);
    case SwitchBranch(cmp, result) =>
      ExpandSeqIgnoresScope(api, cmp, vars1, vars2, page, fuel);
      ExpandSeqIgnoresScope(api, result, vars1, vars2, page, fuel);
    case PosArg(value) =>
      ExpandSeqIgnoresScope(api, value, vars1, vars2, page, fuel);
    case NamedArg(key, value) =>
      ExpandSeqIgnoresScope(api, key, vars1, vars2, page, fuel);
      ExpandSeqIgnoresScope(api, value, vars1, vars2, page, fuel);
    case Invoke(mod, fn, posArgs, namedArgs) =>
      ExpandSeqIgnoresScope(api, mod, vars1, vars2, page, fuel);
      ExpandSeqIgnoresScope(api, fn, vars1, vars2, page, fuel);
      ExpandSeqIgnoresScope(api, posArgs, vars1, vars2, page, fuel);
      ExpandSeqIgnoresScope(api, namedArgs, vars1, vars2, page, fuel);
    case Other(_, children) =>
      ExpandSeqIgnoresScope(api, children, vars1, vars2, page, fuel);
  }

  /** Scope replacement at a template call: once the call's name and
      arguments expand alike under two caller tables, the call's result is
      the same under both, however the body uses its variables. */
  lemma TemplateBodyIgnoresCallerScope(api: Api, tpl: Node, vars1: Vars, vars2: Vars, page: Option<Page>, fuel: nat)
    requires tpl.Template?
    requires ExpandSeq(api, tpl.name, vars1, page, fuel) == ExpandSeq(api, tpl.name, vars2, page, fuel)
    requires ExpandSeq(api, tpl.posArgs, vars1, page, fuel) == ExpandSeq(api, tpl.posArgs, vars2, page, fuel)
    requires ExpandSeq(api, tpl.namedArgs, vars1, page, fuel) == ExpandSeq(api, tpl.namedArgs, vars2, page, fuel)
    ensures Expand(api, tpl, vars1, page, fuel) == Expand(api, tpl, vars2, page, fuel)
  {
  }

  /** A template that cannot be fetched fails the call with the fetch's
      error, whatever the nesting bound: the fetch comes before the bound
      is checked. */
  lemma TemplateFetchFailurePropagates(api: Api, tpl: Node, vars: Vars, page: Option<Page>, fuel: nat)
    requires tpl.Template?
    ensures var name := ExpandSeq(api, tpl.name, vars, page, fuel);
      && name.Ok?
      && ExpandSeq(api, tpl.posArgs, vars, page, fuel).Ok?
      && ExpandSeq(api, tpl.namedArgs, vars, page, fuel).Ok?
      && api.fetchTemplate(api.renderId(name.value)).Err?
      ==> Expand(api, tpl, vars, page, fuel) == Err(api.fetchTemplate(api.renderId(name.value)).error)
  {
  }

  /** Variable lookup: the binding of the identified name in the current
      table, else the default, else nothing, spliced verbatim: the nodes
      are not walked again, even when they are macros. */
  lemma VariableLookup(api: Api, v: Node, vars: Vars, page: Option<Page>, fuel: nat)
    requires v.Variable?
    ensures var key := api.renderId(v.name);
      && (key in vars ==> ExpandSeq(api, [v], vars, page, fuel) == Ok(vars[key]))
      && (key !in vars && v.default.Some? ==> ExpandSeq(api, [v], vars, page, fuel) == Ok(v.default.value))
      && (key !in vars && v.default.None? ==> ExpandSeq(api, [v], vars, page, fuel) == Ok([]))
  {
    ExpandSeqSingleton(api, v, vars, page, fuel);
  }

  /** `#if` truthiness: the true branch iff the rendered condition has a
      character that is not whitespace; a blank condition is false. */
  lemma IfTruthiness(api: Api, n: Node, vars: Vars, page: Option<Page>, fuel: nat,
                     cond: NodeList, whenTrue: NodeList, whenFalse: NodeList)
    requires n.If?
    requires ExpandSeq(api, n.cond, vars, page, fuel) == Ok(cond)
    requires ExpandSeq(api, n.whenTrue, vars, page, fuel) == Ok(whenTrue)
    requires ExpandSeq(api, n.whenFalse, vars, page, fuel) == Ok(whenFalse)
    ensures Expand(api, n, vars, page, fuel)
         == Ok(Splice(if Blank(api.render(cond)) then whenFalse else whenTrue))
  {
  }

  /** Text without whitespace at either end. */
  predicate Trimmed(s: string) {
    s == [] || (!IsSpace(s[0]) && !IsSpace(s[|s| - 1]))
  }

  lemma TrimmedIsStripped(s: string)
    requires Trimmed(s)
    ensures Strip(s) == s
  {
    if s != [] {
      assert StripLeft(s) == s;
    }
  }

  /** `#ifeq` compares the visible texts: whitespace around either side is
      ignored, and the comparison is exact otherwise. */
  lemma IfEqComparesTrimmed(api: Api, n: Node, vars: Vars, page: Option<Page>, fuel: nat,
                            lhs: NodeList, rhs: NodeList, whenTrue: NodeList, whenFalse: NodeList,
                            pre1: string, x: string, post1: string, pre2: string, y: string, post2: string)
    requires n.IfEq?
    requires ExpandSeq(api, n.lhs, vars, page, fuel) == Ok(lhs)
    requires ExpandSeq(api, n.rhs, vars, page, fuel) == Ok(rhs)
    requires ExpandSeq(api, n.whenTrue, vars, page, fuel) == Ok(whenTrue)
    requires ExpandSeq(api, n.whenFalse, vars, page, fuel) == Ok(whenFalse)
    requires Blank(pre1) && Blank(post1) && Blank(pre2) && Blank(post2) && Trimmed(x) && Trimmed(y)
    requires api.render(lhs) == pre1 + x + post1 && api.render(rhs) == pre2 + y + post2
    ensures Expand(api, n, vars, page, fuel) == Ok(Splice(if x == y then whenTrue else whenFalse))
  {
    assert Strip(api.render(lhs)) == x by {
      StripIgnoresPadding(pre1, x, post1);
      TrimmedIsStripped(x);
    }
    assert Strip(api.render(rhs)) == y by {
      StripIgnoresPadding(pre2, y, post2);
      TrimmedIsStripped(y);
    }
    assert Expand(api, n, vars, page, fuel) == ExpandIfEq(api, n, vars, page, fuel);
  }

  /** `#ifexist`: the true branch iff the boundary reports that the page
      named by the rendered target exists; its failure is not masked. */
  lemma IfExistAsksBoundary(api: Api, n: Node, vars: Vars, page: Option<Page>, fuel: nat,
                            target: NodeList, whenTrue: NodeList, whenFalse: NodeList)
    requires n.IfExist?
    requires ExpandSeq(api, n.target, vars, page, fuel) == Ok(target)
    requires ExpandSeq(api, n.whenTrue, vars, page, fuel) == Ok(whenTrue)
    requires ExpandSeq(api, n.whenFalse, vars, page, fuel) == Ok(whenFalse)
    ensures api.pageExists(api.render(target)) == Ok(true) ==> Expand(api, n, vars, page, fuel) == Ok(Splice(whenTrue))
    ensures api.pageExists(api.render(target)) == Ok(false) ==> Expand(api, n, vars, page, fuel) == Ok(Splice(whenFalse))
    ensures api.pageExists(api.render(target)).Err?
            ==> Expand(api, n, vars, page, fuel) == Err(api.pageExists(api.render(target)).error)
  {
  }

  /** A switch element filed under key `k`. */
  predicate HasKey(key: NodeList -> string, b: Node, k: string) {
    IsPair(b) && BranchKey(key, b) == k
  }

  /** Branch `i` is the last one filed under `k`. */
  predicate LastWithKey(key: NodeList -> string, bs: NodeList, i: int, k: string) {
    0 <= i < |bs| && HasKey(key, bs[i], k)
    && forall j :: i < j < |bs| ==> !HasKey(key, bs[j], k)
  }

  /** Every element unpacks into a match value and a result. */
  predicate AllPairs(bs: NodeList) {
    forall i :: 0 <= i < |bs| ==> IsPair(bs[i])
  }

  /** The branch map is built iff every element unpacks into two node
      lists. */
  lemma {:induction false} SwitchMapOk(key: NodeList -> string, bs: NodeList)
    ensures SwitchMap(key, bs).Ok? <==> AllPairs(bs)
    ensures SwitchMap(key, bs).Err? ==> SwitchMap(key, bs).error == Malformed
    decreases |bs|
  {
    if bs != [] {
      var init := bs[..|bs| - 1];
      SwitchMapOk(key, init);
      assert AllPairs(bs) <==> AllPairs(init) && IsPair(bs[|bs| - 1]) by {
        if AllPairs(init) && IsPair(bs[|bs| - 1]) {
          forall i | 0 <= i < |bs| ensures IsPair(bs[i]) {
            if i < |init| { assert bs[i] == init[i]; }
          }
        }
      }
    }
  }

  /** One step of make_switch_map: the last branch is filed over the map
      of the others. */
  lemma SwitchMapStep(key: NodeList -> string, bs: NodeList)
    requires bs != [] && SwitchMap(key, bs).Ok?
    ensures SwitchMap(key, bs[..|bs| - 1]).Ok? && IsPair(bs[|bs| - 1])
    ensures SwitchMap(key, bs).value
         == SwitchMap(key, bs[..|bs| - 1]).value[BranchKey(key, bs[|bs| - 1]) := PairValue(bs[|bs| - 1])]
  {
  }

  /** The branch map has exactly the keys of the branches. */
  lemma {:induction false} SwitchMapKeys(key: NodeList -> string, bs: NodeList)
    requires SwitchMap(key, bs).Ok?
    ensures forall k :: k in SwitchMap(key, bs).value
                      ==> exists i :: 0 <= i < |bs| && HasKey(key, bs[i], k)
    ensures forall i, k :: 0 <= i < |bs| && HasKey(key, bs[i], k)
                         ==> k in SwitchMap(key, bs).value
    decreases |bs|
  {
    if bs != [] {
      var init := bs[..|bs| - 1];
      var last := bs[|bs| - 1];
      SwitchMapStep(key, bs);
      SwitchMapKeys(key, init);
      var m0 := SwitchMap(key, init).value;
      var m := SwitchMap(key, bs).value;
      forall k | k in m ensures exists i :: 0 <= i < |bs| && HasKey(key, bs[i], k) {
        if k == BranchKey(key, last) {
          assert HasKey(key, bs[|bs| - 1], k);
        } else {
          assert k in m0;
          var i :| 0 <= i < |init| && HasKey(key, init[i], k);
          assert bs[i] == init[i];
        }
      }
      forall i, k | 0 <= i < |bs| && HasKey(key, bs[i], k) ensures k in m {
        if i < |init| {
          assert init[i] == bs[i];
          assert k in m0;
        }
      }
    }
  }

  /** Last duplicate wins: each key holds the result of the last branch
      filed under it. */
  lemma {:induction false} SwitchMapLastWins(key: NodeList -> string, bs: NodeList)
    requires SwitchMap(key, bs).Ok?
    ensures forall i, k :: LastWithKey(key, bs, i, k)
                         ==> k in SwitchMap(key, bs).value && SwitchMap(key, bs).value[k] == PairValue(bs[i])
    decreases |bs|
  {
    if bs != [] {
      var init := bs[..|bs| - 1];
      var last := bs[|bs| - 1];
      SwitchMapStep(key, bs);
      SwitchMapLastWins(key, init);
      var m0 := SwitchMap(key, init).value;
      var m := SwitchMap(key, bs).value;
      forall i, k | LastWithKey(key, bs, i, k)
        ensures k in m && m[k] == PairValue(bs[i])
      {
        if i < |init| {
          assert !HasKey(key, bs[|bs| - 1], k);
          assert k != BranchKey(key, last);
          assert init[i] == bs[i];
          forall j | i < j < |init| ensures !HasKey(key, init[j], k) {
            assert init[j] == bs[j];
          }
          assert LastWithKey(key, init, i, k);
          assert m[k] == m0[k];
        } else {
          assert i == |bs| - 1;
          assert bs[i] == last;
          assert k == BranchKey(key, last);
        }
      }
    }
  }

  /** How the selection reads the branch map: the last branch filed under
      the key, else the last `#default` branch, else nothing. */
  lemma SwitchChoiceSelects(key: NodeList -> string, bs: NodeList, k: string)
    requires SwitchMap(key, bs).Ok?
    ensures forall i :: LastWithKey(key, bs, i, k)
              ==> SwitchChoice(SwitchMap(key, bs).value, k) == PairValue(bs[i])
    ensures (forall i :: 0 <= i < |bs| ==> !HasKey(key, bs[i], k)) ==>
      forall i :: LastWithKey(key, bs, i, "#default")
        ==> SwitchChoice(SwitchMap(key, bs).value, k) == PairValue(bs[i])
    ensures (forall i :: 0 <= i < |bs| ==> !HasKey(key, bs[i], k))
            && (forall i :: 0 <= i < |bs| ==> !HasKey(key, bs[i], "#default"))
            ==> SwitchChoice(SwitchMap(key, bs).value, k) == []
  {
    var m := SwitchMap(key, bs).value;
    SwitchMapKeys(key, bs);
    SwitchMapLastWins(key, bs);
    forall i | LastWithKey(key, bs, i, k) ensures SwitchChoice(m, k) == PairValue(bs[i]) {
      assert k in m;
    }
    if forall i :: 0 <= i < |bs| ==> !HasKey(key, bs[i], k) {
      assert k !in m;
    }
  }

  /** `#switch` selects the last branch filed under the stripped rendered
      discriminant, else the last `#default` branch, else nothing; an
      element that does not unpack into two node lists makes it fail. */
  lemma SwitchSelection(api: Api, n: Node, vars: Vars, page: Option<Page>, fuel: nat,
                        value: NodeList, bs: NodeList)
    requires n.Switch?
    requires ExpandSeq(api, n.value, vars, page, fuel) == Ok(value)
    requires ExpandSeq(api, n.branches, vars, page, fuel) == Ok(bs)
    ensures !AllPairs(bs) ==> Expand(api, n, vars, page, fuel) == Err(Malformed)
    ensures AllPairs(bs) ==>
      forall i :: LastWithKey(SwitchKey(api), bs, i, Strip(api.render(value)))
        ==> Expand(api, n, vars, page, fuel) == Ok(Splice(PairValue(bs[i])))
    ensures AllPairs(bs) && (forall i :: 0 <= i < |bs| ==> !HasKey(SwitchKey(api), bs[i], Strip(api.render(value)))) ==>
      forall i :: LastWithKey(SwitchKey(api), bs, i, "#default")
        ==> Expand(api, n, vars, page, fuel) == Ok(Splice(PairValue(bs[i])))
    ensures AllPairs(bs)
            && (forall i :: 0 <= i < |bs| ==> !HasKey(SwitchKey(api), bs[i], Strip(api.render(value))))
            && (forall i :: 0 <= i < |bs| ==> !HasKey(SwitchKey(api), bs[i], "#default"))
            ==> Expand(api, n, vars, page, fuel) == Ok(Splice([]))
  {
    var key := Strip(api.render(value));
    SwitchMapOk(SwitchKey(api), bs);
    var table := SwitchMap(SwitchKey(api), bs);
    assert Expand(api, n, vars, page, fuel) == ExpandSwitch(api, n, vars, page, fuel);
    if table.Ok? {
      assert Expand(api, n, vars, page, fuel) == Ok(Splice(SwitchChoice(table.value, key)));
      SwitchChoiceSelects(SwitchKey(api), bs, key);
    } else {
      assert Expand(api, n, vars, page, fuel) == Err(Malformed);
    }
  }

  /** A named argument in a switch is filed like a branch: its key is the
      match value and its value the result. */
  lemma SwitchFilesNamedArgument(api: Api, vars: Vars, page: Option<Page>, fuel: nat)
    requires api.render([Text("a")]) == "a"
    ensures Expand(api, Switch([Text("a")], [NamedArg([Text("a")], [Text("x")])]), vars, page, fuel)
         == Ok(Splice([Text("x")]))
  {
    var arg := NamedArg([Text("a")], [Text("x")]);
    var n := Switch([Text("a")], [arg]);
    ExpandSeqIdentity(api, [Text("a")], vars, page, fuel);
    ExpandSeqIdentity(api, [arg], vars, page, fuel);
    assert Strip(api.render([Text("a")])) == "a" by {
      TrimmedIsStripped("a");
    }
    assert LastWithKey(SwitchKey(api), [arg], 0, "a");
    SwitchSelection(api, n, vars, page, fuel, [Text("a")], [arg]);
  }

  /** Invoke is a singleton: the module's answer is inserted as exactly one
      bare string, never spliced, also when it is empty; a failing module
      call fails the list. */
  lemma InvokeInsertsOneString(api: Api, n: Node, vars: Vars, page: Option<Page>, fuel: nat)
    requires n.Invoke?
    ensures var mod := ExpandSeq(api, n.mod, vars, page, fuel);
      var fn := ExpandSeq(api, n.fn, vars, page, fuel);
      var posArgs := ExpandSeq(api, n.posArgs, vars, page, fuel);
      var namedArgs := ExpandSeq(api, n.namedArgs, vars, page, fuel);
      mod.Ok? && fn.Ok? && posArgs.Ok? && namedArgs.Ok? ==>
        var answer := api.invoke(Strip(api.renderId(mod.value)), Strip(api.renderId(fn.value)),
                                 api.makeVars(posArgs.value, namedArgs.value));
        && (answer.Ok? ==> ExpandSeq(api, [n], vars, page, fuel) == Ok([Str(answer.value)]))
        && (answer.Err? ==> ExpandSeq(api, [n], vars, page, fuel) == Err(answer.error))
  {
    ExpandSeqSingleton(api, n, vars, page, fuel);
  }

  /** A variable table whose bindings are fully expanded. */
  predicate TableExpanded(vars: Vars) {
    forall k :: k in vars ==> AllExpanded(vars[k])
  }

  /** Every variable default in the tree is macro-free. */
  predicate DefaultsExpanded(n: Node)
    decreases n
  {
    match n
    case Text(_) => true
    case Str(_) => true
    case Variable(_, default) => default.None? || AllExpanded(default.value)
    case Template(name, posArgs, namedArgs) =>
      AllDefaultsExpanded(name) && AllDefaultsExpanded(posArgs) && AllDefaultsExpanded(namedArgs)
    case If(cond, whenTrue, whenFalse) =>
      AllDefaultsExpanded(cond) && AllDefaultsExpanded(whenTrue) && AllDefaultsExpanded(whenFalse)
    case IfEq(lhs, rhs, whenTrue, whenFalse) =>
      AllDefaultsExpanded(lhs) && AllDefaultsExpanded(rhs) && AllDefaultsExpanded(whenTrue) && AllDefaultsExpanded(whenFalse)
    case IfExist(target, whenTrue, whenFalse) =>
      AllDefaultsExpanded(target) && AllDefaultsExpanded(whenTrue) && AllDefaultsExpanded(whenFalse)
    case Switch(value, branches) => AllDefaultsExpanded(value) && AllDefaultsExpanded(branches)
    case SwitchBranch(cmp, result) => AllDefaultsExpanded(cmp) && AllDefaultsExpanded(result)
    case PosArg(value) => AllDefaultsExpanded(value)
    case NamedArg(key, value) => AllDefaultsExpanded(key) && AllDefaultsExpanded(value)
    case Invoke(mod, fn, posArgs, namedArgs) =>
      AllDefaultsExpanded(mod) && AllDefaultsExpanded(fn) && AllDefaultsExpanded(posArgs) && AllDefaultsExpanded(namedArgs)
    case Other(_, children) => AllDefaultsExpanded(children)
  }

  predicate AllDefaultsExpanded(s: NodeList)
    decreases s
  {
    forall i :: 0 <= i < |s| ==> DefaultsExpanded(s[i])
  }

  /** What full expansion needs from the collaborators: make_vars keeps
      expanded arguments expanded, the inclusion filter adds no macro, and
      fetched template bodies have macro-free variable defaults. */
  ghost predicate KeepsExpansion(api: Api) {
    && (forall posArgs, namedArgs :: AllExpanded(posArgs) && AllExpanded(namedArgs)
          ==> TableExpanded(api.makeVars(posArgs, namedArgs)))
    && (forall s, page :: AllExpanded(s) ==> AllExpanded(api.inclusion(s, page)))
    && (forall name :: api.fetchTemplate(name).Ok? ==> AllDefaultsExpanded(api.fetchTemplate(name).value.body))
  }

  /** Every value in a switch map built from expanded branches is expanded. */
  lemma {:induction false} SwitchMapExpanded(key: NodeList -> string, bs: NodeList)
    requires AllExpanded(bs) && SwitchMap(key, bs).Ok?
    ensures TableExpanded(SwitchMap(key, bs).value)
    decreases |bs|
  {
    if bs != [] {
      SwitchMapExpanded(key, bs[..|bs| - 1]);
      assert Expanded(bs[|bs| - 1]);
    }
  }

  lemma AllExpandedConcat(a: NodeList, b: NodeList)
    requires AllExpanded(a) && AllExpanded(b)
    ensures AllExpanded(a + b)
  {
    forall i | 0 <= i < |a + b| ensures Expanded((a + b)[i]) {
      if i >= |a| { assert (a + b)[i] == b[i - |a|]; }
    }
  }

  /** Full expansion: when variable defaults are macro-free (in the input,
      in the current table and in every fetched body) and the collaborators
      keep expansion, a successful expansion leaves no macro node. */
  lemma {:induction false} ExpandSeqFullyExpands(api: Api, s: NodeList, vars: Vars, page: Option<Page>, fuel: nat)
    requires KeepsExpansion(api) && TableExpanded(vars) && AllDefaultsExpanded(s)
    requires ExpandSeq(api, s, vars, page, fuel).Ok?
    ensures AllExpanded(ExpandSeq(api, s, vars, page, fuel).value)
    decreases fuel, s, 0
  {
    if s != [] {
      ExpandFullyExpands(api, s[0], vars, page, fuel);
      ExpandSeqFullyExpands(api, s[1..], vars, page, fuel);
      AllExpandedConcat(Contribution(Expand(api, s[0], vars, page, fuel).value),
                        ExpandSeq(api, s[1..], vars, page, fuel).value);
    }
  }

  lemma {:induction false} ExpandFullyExpands(api: Api, n: Node, vars: Vars, page: Option<Page>, fuel: nat)
    requires KeepsExpansion(api) && TableExpanded(vars) && DefaultsExpanded(n)
    requires Expand(api, n, vars, page, fuel).Ok?
    ensures AllExpanded(Contribution(Expand(api, n, vars, page, fuel).value))
    decreases fuel, n, 1
  {
    match n
    case Text(_) =>
    case Str(_) =>
    case Variable(_, _) =>
    case Template(name, posArgs, namedArgs) =>
      ExpandSeqFullyExpands(api, name, vars, page, fuel);
      ExpandSeqFullyExpands(api, posArgs, vars, page, fuel);
      ExpandSeqFullyExpands(api, namedArgs, vars, page, fuel);
      var name' := ExpandSeq(api, name, vars, page, fuel).value;
      var posArgs' := ExpandSeq(api, posArgs, vars, page, fuel).value;
      var namedArgs' := ExpandSeq(api, namedArgs, vars, page, fuel).value;
      var tplPage := api.fetchTemplate(api.renderId(name')).value;
      var scope := api.makeVars(posArgs', namedArgs');
      ExpandSeqFullyExpands(api, tplPage.body, scope, Some(tplPage), fuel - 1);
    case If(cond, whenTrue, whenFalse) =>
      ExpandSeqFullyExpands(api, cond, vars, page, fuel);
      ExpandSeqFullyExpands(api, whenTrue, vars, page, fuel);
      ExpandSeqFullyExpands(api, whenFalse, vars, page, fuel);
    case IfEq(lhs, rhs, whenTrue, whenFalse) =>
      ExpandSeqFullyExpands(api, lhs, vars, page, fuel);
      ExpandSeqFullyExpands(api, rhs, vars, page, fuel);
      ExpandSeqFullyExpands(api, whenTrue, vars, page, fuel);
      ExpandSeqFullyExpands(api, whenFalse, vars, page, fuel);
    case IfExist(target, whenTrue, whenFalse) =>
      ExpandSeqFullyExpands(api, target, vars, page, fuel);
      ExpandSeqFullyExpands(api, whenTrue, vars, page, fuel);
      ExpandSeqFullyExpands(api, whenFalse, vars, page, fuel);
    case Switch(value, branches) =>
      ExpandSeqFullyExpands(api, value, vars, page, fuel);
      ExpandSeqFullyExpands(api, branches, vars, page, fuel);
      SwitchMapExpanded(SwitchKey(api), ExpandSeq(api, branches, vars, page, fuel).value);
    case Invoke(mod, fn, posArgs, namedArgs) =>
    case SwitchBranch(cmp, result) =>
      ExpandSeqFullyExpands(api, cmp, vars, page, fuel);
      ExpandSeqFullyExpands(api, result, vars, page, fuel);
    case PosArg(value) =>
      ExpandSeqFullyExpands(api, value, vars, page, fuel);
    case NamedArg(key, value) =>
      ExpandSeqFullyExpands(api, key, vars, page, fuel);
      ExpandSeqFullyExpands(api, value, vars, page, fuel);
    case Other(_, children) =>
      ExpandSeqFullyExpands(api, children, vars, page, fuel);
  }

  /** The nesting bound is the only thing fuel decides: an expansion that
      did not stop with `DepthExceeded` has the same outcome with any larger
      bound, so it is the outcome of the unbounded engine. */
  lemma {:induction false} ExpandSeqMoreFuel(api: Api, s: NodeList, vars: Vars, page: Option<Page>, fuel: nat, more: nat)
    requires fuel <= more
    ensures ExpandSeq(api, s, vars, page, fuel) != Err(DepthExceeded)
            ==> ExpandSeq(api, s, vars, page, more) == ExpandSeq(api, s, vars, page, fuel)
    decreases fuel, s, 0
  {
    if s != [] {
      ExpandMoreFuel(api, s[0], vars, page, fuel, more);
      ExpandSeqMoreFuel(api, s[1..], vars, page, fuel, more);
    }
  }

  lemma {:induction false} ExpandMoreFuel(api: Api, n: Node, vars: Vars, page: Option<Page>, fuel: nat, more: nat)
    requires fuel <= more
    ensures Expand(api, n, vars, page, fuel) != Err(DepthExceeded)
            ==> Expand(api, n, vars, page, more) == Expand(api, n, vars, page, fuel)
    decreases fuel, n, 1
  {
    match n
    case Text(_) =>
    case Str(_) =>
    case Variable(_, _) =>
    case Template(_, _, _) => TemplateMoreFuel(api, n, vars, page, fuel, more);
    case If(_, _, _) => IfMoreFuel(api, n, vars, page, fuel, more);
    case IfEq(_, _, _, _) => IfEqMoreFuel(api, n, vars, page, fuel, more);
    case IfExist(_, _, _) => IfExistMoreFuel(api, n, vars, page, fuel, more);
    case Switch(_, _) => SwitchMoreFuel(api, n, vars, page, fuel, more);
    case Invoke(_, _, _, _) => InvokeMoreFuel(api, n, vars, page, fuel, more);
    case SwitchBranch(cmp, result) =>
      ExpandSeqMoreFuel(api, cmp, vars, page, fuel, more);
      ExpandSeqMoreFuel(api, result, vars, page, fuel, more);
    case PosArg(value) =>
      ExpandSeqMoreFuel(api, value, vars, page, fuel, more);
    case NamedArg(key, value) =>
      ExpandSeqMoreFuel(api, key, vars, page, fuel, more);
      ExpandSeqMoreFuel(api, value, vars, page, fuel, more);
    case Other(_, children) =>
      ExpandSeqMoreFuel(api, children, vars, page, fuel, more);
  }

  lemma {:induction false} TemplateMoreFuel(api: Api, n: Node, vars: Vars, page: Option<Page>, fuel: nat, more: nat)
    requires n.Template? && fuel <= more
    ensures ExpandTemplate(api, n, vars, page, fuel) != Err(DepthExceeded)
            ==> ExpandTemplate(api, n, vars, page, more) == ExpandTemplate(api, n, vars, page, fuel)
    decreases fuel, n, 0
  {
    ExpandSeqMoreFuel(api, n.name, vars, page, fuel, more);
    ExpandSeqMoreFuel(api, n.posArgs, vars, page, fuel, more);
    ExpandSeqMoreFuel(api, n.namedArgs, vars, page, fuel, more);
    var name := ExpandSeq(api, n.name, vars, page, fuel);
    var posArgs := ExpandSeq(api, n.posArgs, vars, page, fuel);
    var namedArgs := ExpandSeq(api, n.namedArgs, vars, page, fuel);
    if fuel > 0 && name.Ok? && posArgs.Ok? && namedArgs.Ok?
       && api.fetchTemplate(api.renderId(name.value)).Ok? {
      var tplPage := api.fetchTemplate(api.renderId(name.value)).value;
      var scope := api.makeVars(posArgs.value, namedArgs.value);
      ExpandSeqMoreFuel(api, tplPage.body, scope, Some(tplPage), fuel - 1, more - 1);
    }
  }

  lemma {:induction false} IfMoreFuel(api: Api, n: Node, vars: Vars, page: Option<Page>, fuel: nat, more: nat)
    requires n.If? && fuel <= more
    ensures ExpandIf(api, n, vars, page, fuel) != Err(DepthExceeded)
            ==> ExpandIf(api, n, vars, page, more) == ExpandIf(api, n, vars, page, fuel)
    decreases fuel, n, 0
  {
    ExpandSeqMoreFuel(api, n.cond, vars, page, fuel, more);
    ExpandSeqMoreFuel(api, n.whenTrue, vars, page, fuel, more);
    ExpandSeqMoreFuel(api, n.whenFalse, vars, page, fuel, more);
  }

  lemma {:induction false} IfEqMoreFuel(api: Api, n: Node, vars: Vars, page: Option<Page>, fuel: nat, more: nat)
    requires n.IfEq? && fuel <= more
    ensures ExpandIfEq(api, n, vars, page, fuel) != Err(DepthExceeded)
            ==> ExpandIfEq(api, n, vars, page, more) == ExpandIfEq(api, n, vars, page, fuel)
    decreases fuel, n, 0
  {
    ExpandSeqMoreFuel(api, n.lhs, vars, page, fuel, more);
    ExpandSeqMoreFuel(api, n.rhs, vars, page, fuel, more);
    ExpandSeqMoreFuel(api, n.whenTrue, vars, page, fuel, more);
    ExpandSeqMoreFuel(api, n.whenFalse, vars, page, fuel, more);
  }

  lemma {:induction false} IfExistMoreFuel(api: Api, n: Node, vars: Vars, page: Option<Page>, fuel: nat, more: nat)
    requires n.IfExist? && fuel <= more
    ensures ExpandIfExist(api, n, vars, page, fuel) != Err(DepthExceeded)
            ==> ExpandIfExist(api, n, vars, page, more) == ExpandIfExist(api, n, vars, page, fuel)
    decreases fuel, n, 0
  {
    ExpandSeqMoreFuel(api, n.target, vars, page, fuel, more);
    ExpandSeqMoreFuel(api, n.whenTrue, vars, page, fuel, more);
    ExpandSeqMoreFuel(api, n.whenFalse, vars, page, fuel, more);
  }

  lemma {:induction false} SwitchMoreFuel(api: Api, n: Node, vars: Vars, page: Option<Page>, fuel: nat, more: nat)
    requires n.Switch? && fuel <= more
    ensures ExpandSwitch(api, n, vars, page, fuel) != Err(DepthExceeded)
            ==> ExpandSwitch(api, n, vars, page, more) == ExpandSwitch(api, n, vars, page, fuel)
    decreases fuel, n, 0
  {
    ExpandSeqMoreFuel(api, n.value, vars, page, fuel, more);
    ExpandSeqMoreFuel(api, n.branches, vars, page, fuel, more);
  }

  lemma {:induction false} InvokeMoreFuel(api: Api, n: Node, vars: Vars, page: Option<Page>, fuel: nat, more: nat)
    requires n.Invoke? && fuel <= more
    ensures ExpandInvoke(api, n, vars, page, fuel) != Err(DepthExceeded)
            ==> ExpandInvoke(api, n, vars, page, more) == ExpandInvoke(api, n, vars, page, fuel)
    decreases fuel, n, 0
  {
    ExpandSeqMoreFuel(api, n.mod, vars, page, fuel, more);
    ExpandSeqMoreFuel(api, n.fn, vars, page, fuel, more);
    ExpandSeqMoreFuel(api, n.posArgs, vars, page, fuel, more);
    ExpandSeqMoreFuel(api, n.namedArgs, vars, page, fuel, more);
  }

  /** Without the hypothesis on defaults, full expansion fails: a variable
      default is spliced as written, so a template call in it survives. */
  lemma UnexpandedDefaultSurvives(api: Api, page: Option<Page>, fuel: nat)
    ensures var call := Template([Text("foo")], [], []);
      && ExpandSeq(api, [Variable([Text("x")], Some([call]))], map[], page, fuel) == Ok([call])
      && !AllExpanded([call])
  {
    var call := Template([Text("foo")], [], []);
    VariableLookup(api, Variable([Text("x")], Some([call])), map[], page, fuel);
    assert !Expanded([call][0]);
  }

  /** A template whose body calls another template expands transitively
      (two levels of fuel are needed for the two inclusions). */
  lemma NestedTemplateExpands(api: Api, page: Option<Page>, fuel: nat)
    requires fuel >= 2
    requires api.renderId([Text("nested")]) == "nested" && api.renderId([Text("foo")]) == "foo"
    requires api.fetchTemplate("nested") == Ok(Page("nested", [Template([Text("foo")], [], [])]))
    requires api.fetchTemplate("foo") == Ok(Page("foo", [Text("foo")]))
    requires forall s, p :: api.inclusion(s, p) == s
    ensures ExpandSeq(api, [Template([Text("nested")], [], [])], map[], page, fuel) == Ok([Text("foo")])
  {
    var outer := Template([Text("nested")], [], []);
    var inner := Template([Text("foo")], [], []);
    var nestedPage := Page("nested", [inner]);
    var fooPage := Page("foo", [Text("foo")]);
    var scope := api.makeVars([], []);
    ExpandSeqIdentity(api, [Text("foo")], scope, Some(nestedPage), fuel - 1);
    ExpandSeqIdentity(api, [Text("foo")], scope, Some(fooPage), fuel - 2);
    assert Expand(api, inner, scope, Some(nestedPage), fuel - 1)
        == ExpandTemplate(api, inner, scope, Some(nestedPage), fuel - 1)
        == Ok(Splice([Text("foo")]));
    ExpandSeqSingleton(api, inner, scope, Some(nestedPage), fuel - 1);
    ExpandSeqIdentity(api, [Text("nested")], map[], page, fuel);
    assert Expand(api, outer, map[], page, fuel)
        == ExpandTemplate(api, outer, map[], page, fuel)
        == Ok(Splice([Text("foo")]));
    ExpandSeqSingleton(api, outer, map[], page, fuel);
  }

  /** A template body reads its variables from the call's own arguments,
      whatever table the caller has. */
  lemma TemplateArgumentBindsVariable(api: Api, vars: Vars, page: Option<Page>, fuel: nat)
    requires fuel >= 1
    requires api.renderId([Text("with-var")]) == "with-var" && api.renderId([Text("1")]) == "1"
    requires api.fetchTemplate("with-var") == Ok(Page("with-var", [Variable([Text("1")], None)]))
    requires api.makeVars([PosArg([Text("foo")])], []) == map["1" := [Text("foo")]]
    requires forall s, p :: api.inclusion(s, p) == s
    ensures ExpandSeq(api, [Template([Text("with-var")], [PosArg([Text("foo")])], [])], vars, page, fuel)
         == Ok([Text("foo")])
  {
    var call := Template([Text("with-var")], [PosArg([Text("foo")])], []);
    var tplPage := Page("with-var", [Variable([Text("1")], None)]);
    var scope := map["1" := [Text("foo")]];
    ExpandSeqIdentity(api, [Text("with-var")], vars, page, fuel);
    ExpandSeqIdentity(api, [PosArg([Text("foo")])], vars, page, fuel);
    VariableLookup(api, Variable([Text("1")], None), scope, Some(tplPage), fuel - 1);
    assert Expand(api, call, vars, page, fuel)
        == ExpandTemplate(api, call, vars, page, fuel)
        == Ok(Splice([Text("foo")]));
    ExpandSeqSingleton(api, call, vars, page, fuel);
  }
}
