/** The Python content handler on well-formed documents: the callbacks a tree
    yields are always handled to their end, the stack comes back to where it
    was, and the output is the tree printed with its text held back to the
    next end tag. */
module PyTree {
  import opened Output
  import opened Document
  import opened PyHandler
  import opened PyHandlerProperties

  /** The callbacks `xml.sax` makes on the handler for `n`, in document order.
      Comments, directives and processing instructions reach no callback the
      handler overrides. A `Text` node outside the root element yields a
      callback the parser does not make (expat reports no character data
      there); since such text can only be white space, the strip at the next
      end tag removes it (`Output.TrimSpacePrefix`) and nothing changes. */
  function Events(n: Node): seq<SaxEvent>
    decreases n
  {
    match n
    case Element(name, attrs, children) =>
      [StartElement(name, attrs)] + (EventsAll(children) + [EndElement(name)])
    case Text(text) => [Characters(text)]
    case _ => []
  }

  function EventsAll(ns: seq<Node>): seq<SaxEvent>
    decreases ns
  {
    if ns == [] then [] else Events(ns[0]) + EventsAll(ns[1..])
  }

  /** The buffer after `n` when it held `buf` before: text is added to it and
      an element's end empties it. */
  function BufferAfter(n: Node, buf: string): string {
    match n
    case Element(_, _, _) => ""
    case Text(text) => buf + text
    case _ => buf
  }

  function BufferAfterAll(ns: seq<Node>, buf: string): string
    decreases ns
  {
    if ns == [] then buf else BufferAfterAll(ns[1..], BufferAfter(ns[0], buf))
  }

  /** The tree printed at depth `d` with `buf` held back before it: an
      element starts a new line with `d` fillers and its children go one
      level deeper; at its end the text held back since the last end tag is
      written, trimmed, then the end name, brought back to depth `d` only when
      a child element ended a line. Text itself writes nothing where it
      stands. */
  function PrettyHeld(n: Node, d: nat, buf: string): seq<Event>
    decreases n
  {
    match n
    case Element(name, attrs, children) =>
      StartWrites(d, name, attrs) + PrettyHeldAll(children, d + 1, buf) +
      (DataWrite(Trim(BufferAfterAll(children, buf))) + CloseWrites(d, children, name))
    case _ => []
  }

  function PrettyHeldAll(ns: seq<Node>, d: nat, buf: string): seq<Event>
    decreases ns
  {
    if ns == [] then []
    else PrettyHeld(ns[0], d, buf) + PrettyHeldAll(ns[1..], d, BufferAfter(ns[0], buf))
  }

  /** The callbacks of `n`, with `stack` open and `buf` held back, never
      fail: they leave the stack as it was, the buffer as `BufferAfter`
      says, move the last write position as `LastStart` says, and write `n`
      as `PrettyHeld` prints it. */
  lemma {:induction false} HandlesNode(stack: seq<string>, buf: string, l: nat, n: Node)
    ensures Feed(State(stack, buf, l), Events(n)) ==
      Effect(Done(State(stack, BufferAfter(n, buf), LastStart(n, |stack|, l))), PrettyHeld(n, |stack|, buf))
    decreases n
  {
    var st := State(stack, buf, l);
    match n {
      case Element(name, attrs, children) =>
        var d := |stack|;
        var start := StartElement(name, attrs);
        var inner := State(stack + [name], buf, d);
        FeedOne(st, start);
        FeedAppend(st, [start], EventsAll(children) + [EndElement(name)]);
        HandlesAll(stack + [name], buf, d, children);
        var last := LastStartAll(children, d + 1, d);
        var held := BufferAfterAll(children, buf);
        FeedAppend(inner, EventsAll(children), [EndElement(name)]);
        FeedOne(State(stack + [name], held, last), EndElement(name));
        assert (stack + [name])[..d] == stack;
        Regroup(StartWrites(d, name, attrs), PrettyHeldAll(children, d + 1, buf),
                DataWrite(Trim(held)) + CloseWrites(d, children, name));
      case Text(text) =>
        FeedOne(st, Characters(text));
      case CommentNode(_) =>
      case DirectiveNode(_) =>
      case ProcInstNode(_, _) =>
    }
  }

  /** The same for siblings, read one after the other. */
  lemma {:induction false} HandlesAll(stack: seq<string>, buf: string, l: nat, ns: seq<Node>)
    ensures Feed(State(stack, buf, l), EventsAll(ns)) ==
      Effect(Done(State(stack, BufferAfterAll(ns, buf), LastStartAll(ns, |stack|, l))),
             PrettyHeldAll(ns, |stack|, buf))
    decreases ns
  {
    if ns != [] {
      var st := State(stack, buf, l);
      HandlesNode(stack, buf, l, ns[0]);
      HandlesAll(stack, BufferAfter(ns[0], buf), LastStart(ns[0], |stack|, l), ns[1..]);
      FeedAppend(st, Events(ns[0]), EventsAll(ns[1..]));
    }
  }

  /** A whole document parses without an exception and leaves the stack
      empty; only text after the root element stays in the buffer. */
  lemma HandlesDocument(doc: seq<Node>)
    ensures Feed(Initial, EventsAll(doc)) ==
      Effect(Done(State([], BufferAfterAll(doc, ""), LastStartAll(doc, 0, 0))), PrettyHeldAll(doc, 0, ""))
  {
    HandlesAll([], "", 0, doc);
  }
}
