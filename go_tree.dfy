/** The Go renderer on well-formed documents: the tokens a tree yields are
    always handled to their end, the stack comes back to where it was, and
    the output is the tree pretty-printed. */
module GoTree {
  import opened Output
  import opened Document
  import opened GoRender
  import opened GoRenderProperties

  /** The tokens the decoder delivers for `n`, in document order. */
  function Tokens(n: Node): seq<Token>
    decreases n
  {
    match n
    case Element(name, attrs, children) =>
      [StartElement(name, attrs)] + (TokensAll(children) + [EndElement(name)])
    case Text(text) => [CharData(text)]
    case CommentNode(text) => [CommentToken(text)]
    case DirectiveNode(text) => [DirectiveToken(text)]
    case ProcInstNode(target, inst) => [ProcInst(target, inst)]
  }

  /** The tokens of the siblings `ns`, one after the other. */
  function TokensAll(ns: seq<Node>): seq<Token>
    decreases ns
  {
    if ns == [] then [] else Tokens(ns[0]) + TokensAll(ns[1..])
  }

  /** The tree printed at depth `d`: an element starts a new line with `d`
      fillers, its children go one level deeper, and its end name is brought
      back to depth `d` only when a child element ended a line; text is
      trimmed and dropped when blank; comments show only when asked for;
      processing instructions print nothing. */
  function Pretty(n: Node, d: nat, showComments: bool): seq<Event>
    decreases n
  {
    match n
    case Element(name, attrs, children) =>
      StartWrites(d, name, attrs) + PrettyAll(children, d + 1, showComments) + CloseWrites(d, children, name)
    case Text(text) => DataWrite(Trim(text))
    case CommentNode(text) => if showComments then [Comment(text)] else []
    case DirectiveNode(text) => [Directive(text)]
    case ProcInstNode(_, _) => []
  }

  function PrettyAll(ns: seq<Node>, d: nat, showComments: bool): seq<Event>
    decreases ns
  {
    if ns == [] then [] else Pretty(ns[0], d, showComments) + PrettyAll(ns[1..], d, showComments)
  }

  /** A single token is a single turn of the loop. */
  lemma FeedOne(showComments: bool, st: State, t: Token)
    ensures Feed(showComments, st, [t]) == Step(showComments, st, t)
  {
    FeedUnfold(showComments, st, [t]);
    assert [t][1..] == [];
  }

  /** The tokens of `n`, fed with `stack` open, never fail: they leave the
      stack as it was, move the last write position as `LastStart` says, and
      write `n` pretty-printed at the depth of `stack`. */
  lemma {:induction false} RendersNode(showComments: bool, stack: seq<string>, l: nat, n: Node)
    ensures Feed(showComments, State(stack, l), Tokens(n)) ==
      Effect(Done(State(stack, LastStart(n, |stack|, l))), Pretty(n, |stack|, showComments))
    decreases n
  {
    var st := State(stack, l);
    match n {
      case Element(name, attrs, children) =>
        var d := |stack|;
        var start := StartElement(name, attrs);
        var inner := State(stack + [name], d);
        FeedOne(showComments, st, start);
        FeedAppend(showComments, st, [start], TokensAll(children) + [EndElement(name)]);
        RendersAll(showComments, stack + [name], d, children);
        var last := LastStartAll(children, d + 1, d);
        FeedAppend(showComments, inner, TokensAll(children), [EndElement(name)]);
        FeedOne(showComments, State(stack + [name], last), EndElement(name));
        assert (stack + [name])[..d] == stack;
        Regroup(StartWrites(d, name, attrs), PrettyAll(children, d + 1, showComments), CloseWrites(d, children, name));
      case Text(text) =>
        FeedOne(showComments, st, CharData(text));
      case CommentNode(text) =>
        FeedOne(showComments, st, CommentToken(text));
      case DirectiveNode(text) =>
        FeedOne(showComments, st, DirectiveToken(text));
      case ProcInstNode(target, inst) =>
        FeedOne(showComments, st, ProcInst(target, inst));
    }
  }

  /** The same for siblings, read one after the other. */
  lemma {:induction false} RendersAll(showComments: bool, stack: seq<string>, l: nat, ns: seq<Node>)
    ensures Feed(showComments, State(stack, l), TokensAll(ns)) ==
      Effect(Done(State(stack, LastStartAll(ns, |stack|, l))), PrettyAll(ns, |stack|, showComments))
    decreases ns
  {
    if ns != [] {
      var st := State(stack, l);
      RendersNode(showComments, stack, l, ns[0]);
      var l' := LastStart(ns[0], |stack|, l);
      RendersAll(showComments, stack, l', ns[1..]);
      FeedAppend(showComments, st, Tokens(ns[0]), TokensAll(ns[1..]));
    }
  }

  /** A whole document (the root element with whatever comments, directives
      and processing instructions surround it) renders without failing,
      ends with the stack empty, and prints as its pretty form followed by
      the final reset and line break. */
  lemma RendersDocument(showComments: bool, doc: seq<Node>)
    ensures Rendered(showComments, TokensAll(doc)) ==
      Effect(Done(State([], LastStartAll(doc, 0, 0))), PrettyAll(doc, 0, showComments) + [Reset, Newline])
  {
    RendersAll(showComments, [], 0, doc);
  }

  /** Every element of a document prints its start on a line of its own, one
      filler per level of depth: the writes of an element at depth `d` begin
      with a line break and `d` fillers, then its name. */
  lemma ElementStartsLine(n: Node, d: nat, showComments: bool)
    requires n.Element?
    ensures var r := Pretty(n, d, showComments);
      |r| >= d + 2 && r[0] == Newline && r[d + 1] == StartName(n.name) &&
      forall i :: 1 <= i <= d ==> r[i] == Indent
  {
    StartWritesShape(d, n.name, n.attrs);
  }

  /** An element's end name is indented back to its depth (`d` fillers) when
      it has a child element, and otherwise follows its content on the same
      line; it never starts a line of its own. */
  lemma EndIndentation(n: Node, d: nat)
    requires n.Element?
    ensures var close := CloseWrites(d, n.children, n.name);
      |close| == (if HasElement(n.children) then d + 1 else 1) && close[|close| - 1] == EndName(n.name) &&
      Newline !in close
  {
    CloseIndented(n.children, d);
    EndWritesShape(d, LastStartAll(n.children, d + 1, d), n.name);
  }
}
