/** The two programs print the same document the same way when its text sits
    only in leaf elements: the Python handler's held-back text then always
    reaches the end tag of the element it belongs to, and the Go renderer,
    with comments hidden, writes the same events up to its final reset.
    Names are one string in both models, so this holds for documents without
    namespace prefixes: the Python parser, with namespaces off, reports
    qualified names (`x:a`), while the Go renderer prints local names (`a`). */
module Agreement {
  import opened Output
  import opened Document
  import GoRender
  import GoTree
  import PyHandler
  import PyTree

  /** A leaf element's content: a single run of text. */
  predicate IsLeafContent(children: seq<Node>) {
    |children| == 1 && children[0].Text?
  }

  /** Text only in leaf elements, white space only between elements, and no
      directives (the Python handler has no callback for them). */
  predicate Conventional(n: Node)
    decreases n, 1
  {
    match n
    case Element(_, _, children) => IsLeafContent(children) || ConventionalAll(children)
    case Text(text) => AllSpace(text)
    case DirectiveNode(_) => false
    case _ => true
  }

  predicate ConventionalAll(ns: seq<Node>)
    decreases ns, 0
  {
    ns == [] || (Conventional(ns[0]) && ConventionalAll(ns[1..]))
  }

  /** On a conventional node, with only white space held back, the Python
      handler writes what the Go renderer writes with comments hidden, and
      holds back only white space after it. */
  lemma {:induction false} AgreeNode(n: Node, d: nat, buf: string)
    requires Conventional(n) && AllSpace(buf)
    ensures PyTree.PrettyHeld(n, d, buf) == GoTree.Pretty(n, d, false)
    ensures AllSpace(PyTree.BufferAfter(n, buf))
    decreases n, 1
  {
    match n {
      case Element(name, attrs, children) =>
        var close := CloseWrites(d, children, name);
        if IsLeafContent(children) {
          var t := children[0].text;
          assert children[1..] == [];
          assert PyTree.BufferAfterAll(children, buf) == buf + t;
          TrimSpacePrefix(buf, t);
          assert PyTree.PrettyHeldAll(children, d + 1, buf) == [];
          assert GoTree.PrettyAll(children, d + 1, false) == DataWrite(Trim(t));
        } else {
          AgreeAll(children, d + 1, buf);
          assert DataWrite(Trim(PyTree.BufferAfterAll(children, buf))) == [];
          assert [] + close == close;
        }
      case Text(text) =>
        assert forall i :: 0 <= i < |buf + text| ==> (buf + text)[i] == (if i < |buf| then buf[i] else text[i - |buf|]);
      case CommentNode(_) =>
      case DirectiveNode(_) =>
      case ProcInstNode(_, _) =>
    }
  }

  /** The same for siblings, read one after the other. */
  lemma {:induction false} AgreeAll(ns: seq<Node>, d: nat, buf: string)
    requires ConventionalAll(ns) && AllSpace(buf)
    ensures PyTree.PrettyHeldAll(ns, d, buf) == GoTree.PrettyAll(ns, d, false)
    ensures AllSpace(PyTree.BufferAfterAll(ns, buf))
    decreases ns, 0
  {
    if ns != [] {
      AgreeNode(ns[0], d, buf);
      AgreeAll(ns[1..], d, PyTree.BufferAfter(ns[0], buf));
    }
  }

  /** A conventional document: both programs get through it, and what the
      Python handler writes is what the Go renderer writes with comments
      hidden, less the Go renderer's closing reset and line break. */
  lemma SameOutput(doc: seq<Node>)
    requires ConventionalAll(doc)
    ensures var py, go := PyHandler.Feed(PyHandler.Initial, PyTree.EventsAll(doc)),
                          GoRender.Rendered(false, GoTree.TokensAll(doc));
      py.outcome.Done? && go.outcome.Done? && py.outcome.st.stack == [] &&
      py.writes + [Reset, Newline] == go.writes
  {
    PyTree.HandlesDocument(doc);
    GoTree.RendersDocument(false, doc);
    AgreeAll(doc, 0, "");
  }
}
