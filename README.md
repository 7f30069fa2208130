# wikiparse transclusion, modelled in Dafny

This project models the template-transclusion engine of wikiparse, the
`Transcluder` class. Given a parsed wiki document tree, the engine expands:

- template calls (`{{name|args}}`),
- variable references (`{{{1}}}`),
- the parser functions `#if`, `#ifeq`, `#ifexist`, `#switch` and `#invoke`.

The result is a tree ready for rendering. The outside world is a capability
record, `Ast.Api`. It holds the five methods of `TranscluderAPI`:

- template fetch,
- page existence,
- module invocation,
- rendering,
- identifier rendering.

It also holds two collaborators whose code is not part of this model:

- `make_vars`, which builds a call's variable table from its arguments;
- the inclusion-scope filter applied to an expanded template body.

The project has five modules:

- `Ast` holds the syntax tree, the `Piece` result of rewriting one node and
  the `Result` and `Error` types. A `Splice` piece is the source's `unit`
  wrapper; a `Single` piece is a value appended as one element.
- `PyStrings` models Python's `str.strip()` over the code points for which
  `str.isspace()` holds.
- `Expansion` states the meaning of the engine as pure functions. `ExpandSeq`
  expands a list and `Expand` expands one node. There is one `Expand<Macro>`
  function per `_transclude_<name>` handler, and `SwitchMap` stands for
  `make_switch_map`.
- `ExpansionProperties` proves what the engine promises about those functions.
- `Transclusion` is the engine as written: a `Transcluder` class whose
  `Transform` loop and handler methods are each proved equal to the
  corresponding function of `Expansion`. Every lemma of
  `ExpansionProperties` therefore holds of the methods.

The source has no bound on template nesting. The model passes a `fuel`
depth through template calls. A template call with no fuel left fails with
`DepthExceeded` after its template has been fetched. `ExpandSeqMoreFuel`
proves that this is the only effect of the bound. Any outcome other than
`DepthExceeded` stays the same under every larger bound, so it is the
outcome of the unbounded engine.

Three details of the code that a reader might not expect:

- `_transclude_variable` identifies the variable by its name as written. It
  does not expand the name first, and it does not expand the default it
  splices (`transcluder.py:74-77`). `UnexpandedDefaultSurvives` shows the
  consequence: a template call written in a default survives expansion.
- The template name is passed to `fetch_template` as identified, without
  stripping (`transcluder.py:62`).
- The `#ifexist` target is rendered but not stripped before the existence
  check (`transcluder.py:97`).

## Model

| member | source | states |
|---|---|---|
| Transclusion.Transcluder.constructor | wikiparse/transformer/transcluder.py:31-33 | the transcluder keeps the api it is given |
| Transclusion.Transcluder.Transform | wikiparse/transformer/transcluder.py:39-47 | transforming a list yields exactly `ExpandSeq`: the elements are processed in order, a `unit` result is inlined, any other result is appended, and the first failure is the outcome |
| Transclusion.Transcluder.TransformNode | wikiparse/transformer/transcluder.py:49-58 | transforming one node yields exactly `Expand`: a node with a handler goes to it, other nodes get their children transformed, and leaves come back unchanged |
| Transclusion.Transcluder.TranscludeTemplate | wikiparse/transformer/transcluder.py:60-72 | equals `ExpandTemplate`: the call's parts are expanded, the template is fetched by identifier, and its body is expanded under the table built from this call's arguments and then filtered for inclusion; the rules are proved in `TemplateBodyIgnoresCallerScope` and `TemplateFetchFailurePropagates` |
| Transclusion.Transcluder.TranscludeVariable | wikiparse/transformer/transcluder.py:74-77 | equals `ExpandVariable`: the binding in the current table, else the default, else nothing, spliced; the rule is proved in `VariableLookup` |
| Transclusion.Transcluder.TranscludeIf | wikiparse/transformer/transcluder.py:79-84 | equals `ExpandIf`: the true branch iff the stripped rendered condition is non-empty; the rule is proved in `IfTruthiness` |
| Transclusion.Transcluder.TranscludeIfEq | wikiparse/transformer/transcluder.py:86-93 | equals `ExpandIfEq`: the true branch iff both sides render to equal text once stripped; the rule is proved in `IfEqComparesTrimmed` |
| Transclusion.Transcluder.TranscludeIfExist | wikiparse/transformer/transcluder.py:95-100 | equals `ExpandIfExist`: the branch chosen by the existence check on the rendered target, whose failure propagates; the rule is proved in `IfExistAsksBoundary` |
| Transclusion.Transcluder.TranscludeSwitch | wikiparse/transformer/transcluder.py:102-111 | equals `ExpandSwitch`: the entry for the stripped rendered value, else `#default`, else the empty list; the rule is proved in `SwitchSelection` |
| Transclusion.Transcluder.TranscludeInvoke | wikiparse/transformer/transcluder.py:113-118 | equals `ExpandInvoke`: the module's text for the stripped module and function identifiers, as one bare string; the rule is proved in `InvokeInsertsOneString` |
| Transclusion.Transcluder.MakeSwitchMap | wikiparse/transformer/transcluder.py:123-128 | the loop builds exactly `SwitchMap`: each element's second child list is filed under its first, rendered and stripped, in order; the rules are proved in `SwitchMapKeys` and `SwitchMapLastWins` |
| Expansion.Expand | wikiparse/transformer/transcluder.py:130-134 | a successful expansion is a splice (`unit`) iff the node is a template, variable, if, ifeq, ifexist or switch; an invoke yields a bare string |
| Expansion.ExpandTemplate | wikiparse/transformer/transcluder.py:60-72 | a template call always splices, and fails once the nesting bound is used up; a failed fetch fails the call with its own error, proved in `TemplateFetchFailurePropagates` |
| Expansion.ExpandInvoke | wikiparse/transformer/transcluder.py:113-118 | a successful invoke is a single bare string, never spliced |
| PyStrings.Strip | wikiparse/transformer/transcluder.py:81 | `strip()` is empty iff the text is all whitespace; otherwise it starts and ends with a non-space character |
| PyStrings.StripIgnoresPadding | wikiparse/transformer/transcluder.py:90 | whitespace padding on either side never changes what `strip()` returns |
| ExpansionProperties.ExpandSeqAppend | wikiparse/transformer/transcluder.py:40-47 | expanding `a + b` concatenates the expansions of `a` and `b` in order; a failure in `a` hides `b` |
| ExpansionProperties.ExpandSeqSingleton | wikiparse/transformer/transcluder.py:43-46 | a one-element list expands to the node's contribution: the spliced nodes or the one value |
| ExpansionProperties.ExpandSeqFirstFailure | wikiparse/transformer/transcluder.py:41-42 | a list fails iff one of its elements fails, and then with the error of the first failing element |
| ExpansionProperties.ExpandSeqIdentity | wikiparse/transformer/test_transcluder.py:41-45 | a list with no macro node anywhere expands to itself |
| ExpansionProperties.ExpandIdentity | wikiparse/transformer/transcluder.py:53-58 | a macro-free node expands to itself as a single value |
| ExpansionProperties.PassThrough | wikiparse/transformer/transcluder.py:53-55 | a node without a handler comes back as one node of the same kind and tag with each child list expanded; it fails iff a child list fails |
| ExpansionProperties.SinglesKeepLength | wikiparse/transformer/transcluder.py:45-46 | a list of non-splicing nodes keeps its length, and element `i` of the output is the expansion of element `i` |
| ExpansionProperties.ExpandSeqIgnoresScope | wikiparse/transformer/transcluder.py:35-58 | the variable table matters only through variable references written in the tree: without any, two tables give the same expansion |
| ExpansionProperties.ExpandIgnoresScope | wikiparse/transformer/transcluder.py:35-58 | the same for a single node |
| ExpansionProperties.TemplateBodyIgnoresCallerScope | wikiparse/transformer/transcluder.py:71-72 | a template call whose arguments expand alike under two tables expands alike under both: the body never sees the caller's table |
| ExpansionProperties.TemplateFetchFailurePropagates | wikiparse/transformer/transcluder.py:69 | when the call's parts expand, a failed `fetch_template` fails the call with that error, at every nesting bound including zero |
| ExpansionProperties.VariableLookup | wikiparse/transformer/transcluder.py:74-77 | a variable expands to its binding, else its default, else nothing |
| ExpansionProperties.IfTruthiness | wikiparse/transformer/transcluder.py:79-84 | `#if` chooses the false branch iff the rendered condition is all whitespace |
| ExpansionProperties.TrimmedIsStripped | wikiparse/transformer/transcluder.py:90 | text without surrounding whitespace is unchanged by `strip()` |
| ExpansionProperties.IfEqComparesTrimmed | wikiparse/transformer/transcluder.py:86-93 | `#ifeq` compares the sides without their surrounding whitespace |
| ExpansionProperties.IfExistAsksBoundary | wikiparse/transformer/transcluder.py:95-100 | `#ifexist` takes the true branch on `true` and the false branch on `false`, and propagates a failed existence check |
| ExpansionProperties.SwitchMapOk | wikiparse/transformer/transcluder.py:123-128 | the switch map is built iff every element unpacks into two child lists (a switch branch or a named argument), and otherwise fails as `Malformed` |
| ExpansionProperties.SwitchMapStep | wikiparse/transformer/transcluder.py:125-127 | the map for a list extends the map for all but its last branch with that branch's entry |
| ExpansionProperties.SwitchMapKeys | wikiparse/transformer/transcluder.py:123-128 | the map's keys are exactly the keys of the branches |
| ExpansionProperties.SwitchMapLastWins | wikiparse/transformer/transcluder.py:125-127 | with duplicate keys, the last branch filed under a key gives its entry |
| ExpansionProperties.SwitchSelection | wikiparse/transformer/transcluder.py:102-111 | `#switch` splices the last branch matching the stripped value, else the last `#default` branch, else nothing; an element that does not unpack into two child lists makes it fail |
| ExpansionProperties.SwitchChoiceSelects | wikiparse/transformer/transcluder.py:107-111 | looking up the map gives the last branch filed under the key, else the last `#default` branch, else the empty list |
| ExpansionProperties.SwitchFilesNamedArgument | wikiparse/transformer/transcluder.py:126-127 | a named argument among the branches unpacks into a match value and a result, and is selected like a branch |
| ExpansionProperties.InvokeInsertsOneString | wikiparse/transformer/transcluder.py:113-118 | `#invoke` inserts the module's answer as exactly one bare string, also when it is empty, and a failed module call fails the list |
| ExpansionProperties.SwitchMapExpanded | wikiparse/transformer/transcluder.py:123-128 | a switch map built from macro-free branches holds only macro-free entries |
| ExpansionProperties.AllExpandedConcat | wikiparse/transformer/transcluder.py:43-46 | joining two macro-free lists gives a macro-free list |
| ExpansionProperties.ExpandSeqFullyExpands | wikiparse/transformer/transcluder.py:35-58 | when variable defaults and the current table are macro-free and the collaborators add no macro, a successful expansion leaves no macro node |
| ExpansionProperties.ExpandFullyExpands | wikiparse/transformer/transcluder.py:35-58 | the same for a single node |
| ExpansionProperties.ExpandSeqMoreFuel | wikiparse/transformer/transcluder.py:35-58 | any expansion outcome other than `DepthExceeded` is the same under every larger nesting bound |
| ExpansionProperties.ExpandMoreFuel | wikiparse/transformer/transcluder.py:49-58 | the same for a single node |
| ExpansionProperties.TemplateMoreFuel | wikiparse/transformer/transcluder.py:60-72 | the same for a template call, whose body gets one level less |
| ExpansionProperties.IfMoreFuel | wikiparse/transformer/transcluder.py:79-84 | the same for `#if` |
| ExpansionProperties.IfEqMoreFuel | wikiparse/transformer/transcluder.py:86-93 | the same for `#ifeq` |
| ExpansionProperties.IfExistMoreFuel | wikiparse/transformer/transcluder.py:95-100 | the same for `#ifexist` |
| ExpansionProperties.SwitchMoreFuel | wikiparse/transformer/transcluder.py:102-111 | the same for `#switch` |
| ExpansionProperties.InvokeMoreFuel | wikiparse/transformer/transcluder.py:113-118 | the same for `#invoke` |
| ExpansionProperties.UnexpandedDefaultSurvives | wikiparse/transformer/transcluder.py:77 | a template call written in a variable default is spliced unexpanded |
| ExpansionProperties.NestedTemplateExpands | wikiparse/transformer/test_transcluder.py:62-66 | a template whose body calls another template expands transitively to that template's text |
| ExpansionProperties.TemplateArgumentBindsVariable | wikiparse/transformer/test_transcluder.py:55-59 | `{{with-var\|foo}}` binds `1` to `foo` inside the body, whatever the caller's table |

## Left out

- Asynchrony: the source awaits the boundary calls one at a time in document order. The model evaluates them as plain functions in the same order.
- Logging in `_transclude_template` is left out; it has no effect on the result.
- `make_vars` (transformer.py) is not part of this model. It is the opaque `Api.makeVars`, already applied with the api's renderer.
- The inclusion-scope transformer (inclusion.py) is not part of this model. It is the opaque `Api.inclusion`, with `iterable` of its result taken to be the list itself.
- `WikiPage.parse` (wikipage.py) is not part of this model. A fetched template is a `Page` whose `body` is the tree the page parses to.
- The renderers, the parser and the MediaWiki api client (mediawiki.py) are not part of this model. They enter only as the opaque `render`, `renderId` and boundary fields of `Api`.
- A variable without a default: `iterable(None)` is taken to be the empty list, as its use at `transcluder.py:77` intends.
- The source rewrites a pass-through node's children in place (`ast.children = ...`). The model builds a new node value, so aliasing between subtrees is not captured.
- Transclusion.Transcluder.Transform: the model does not capture effects of that in-place rewrite on shared trees. The MediaWiki client caches each fetched template page (`mediawiki.py:89-94`). If `WikiPage.parse` returned the same tree on every call, the first call's expanded arguments would stay in the cached template body. A later call of the same template would then see them instead of its own. wikipage.py is not part of this model, so whether this happens is not decided here. The model expands a fresh copy of the body on every call.
- Expansion.ExpandTemplate: the source has no nesting bound and runs until the stack overflows on a self-including template. The model stops at `fuel` levels with `DepthExceeded`, so deeper nesting than the fuel allows is not modelled.
- Expansion.SwitchMap: in the source, an element whose `children` is any two-element sequence unpacks, for example a generic node with two children. The model files only switch branches and named arguments, because the node classes are not part of this model; every other element is the `Malformed` error.
- Boundary exceptions (`fetch_template` for an unknown name, `page_exists`, `invoke`) are modelled as `Err` results of the capability functions. Their exact exception types are not modelled.
- The source's dispatch by handler name (`getattr(self, '_transclude_' + name)`) is modelled as a match on the node's variant. Nodes are typed per variant, so unpacking a macro's children cannot fail.
- Ast.Node: the source picks a handler by the node's `name` (`transcluder.py:50-52`), so a generic node named `template`, `if` and so on would go to that handler. The model assumes that an `Other` node's tag is never one of the seven handler names, and passes every `Other` node through.
