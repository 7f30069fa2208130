/** The wiki syntax tree the transcluder rewrites, the values it produces,
    and the capability interface (TranscluderAPI) it consumes. */
module Ast {

  datatype Option<+T> = None | Some(value: T)

  /** Why an expansion was abandoned. The engine never recovers locally:
      the first failure met in document order is the result. */
  datatype Error =
    | NotFound(name: string)          // the wiki has no template of that name
    | BoundaryFailure(reason: string) // fetch, existence check or invoke failed
    | Malformed                       // a switch element whose children are not two node lists
    | DepthExceeded                   // template nesting deeper than the fuel allows

  datatype Result<+T> = Ok(value: T) | Err(error: Error) {
    predicate IsFailure() { Err? }

    function PropagateFailure<U>(): Result<U>
      requires Err?
    {
      Err(error)
    }

    function Extract(): T
      requires Ok?
    {
      value
    }
  }

  type NodeList = seq<Node>

  /** One element of a wiki syntax tree. Every composite variant holds its
      children as node lists; `Text` and `Str` are leaves. `Str` is a bare
      string as produced by a module invocation. */
  datatype Node =
    | Text(content: string)
    | Str(s: string)
    | Template(name: NodeList, posArgs: NodeList, namedArgs: NodeList)
    | Variable(name: NodeList, default: Option<NodeList>)
    | If(cond: NodeList, whenTrue: NodeList, whenFalse: NodeList)
    | IfEq(lhs: NodeList, rhs: NodeList, whenTrue: NodeList, whenFalse: NodeList)
    | IfExist(target: NodeList, whenTrue: NodeList, whenFalse: NodeList)
    | Switch(value: NodeList, branches: NodeList)
    | SwitchBranch(cmp: NodeList, result: NodeList)
    | PosArg(value: NodeList)
    | NamedArg(key: NodeList, value: NodeList)
    | Invoke(mod: NodeList, fn: NodeList, posArgs: NodeList, namedArgs: NodeList)
    | Other(tag: string, children: NodeList) // a generic node; its tag is never a handler's name

  /** The outcome of rewriting one node: a `Splice` is inlined into the
      enclosing list (the source's `unit` wrapper), a `Single` is appended
      as one element. */
  datatype Piece = Splice(nodes: NodeList) | Single(node: Node)

  /** What a piece adds to the enclosing list. */
  function Contribution(p: Piece): (r: NodeList)
    ensures p.Single? ==> |r| == 1
  {
    match p
    case Splice(nodes) => nodes
    case Single(node) => [node]
  }

  /** Nodes that have a `_transclude_<name>` handler returning a spliced list. */
  predicate IsSpliceMacro(n: Node) {
    n.Template? || n.Variable? || n.If? || n.IfEq? || n.IfExist? || n.Switch?
  }

  /** The variable table of one expansion scope: name to unrendered nodes. */
  type Vars = map<string, NodeList>

  /** A wiki page: its title and the syntax tree its source parses to. */
  datatype Page = Page(title: string, body: NodeList)

  /** The capabilities the engine is given. The first five are the methods
      of TranscluderAPI; `makeVars` is make_vars applied with this api's
      renderer, and `inclusion` is the inclusion-scope post-filter applied
      to an expanded template body for the page it is included into. */
  datatype Api = Api(
    fetchTemplate: string -> Result<Page>,
    pageExists: string -> Result<bool>,
    invoke: (string, string, Vars) -> Result<string>,
    render: NodeList -> string,
    renderId: NodeList -> string,
    makeVars: (NodeList, NodeList) -> Vars,
    inclusion: (NodeList, Option<Page>) -> NodeList)
}
