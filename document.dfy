/** Well-formed documents as trees. A lexer that accepts a document delivers
    the tokens of such a tree in document order, so the tree serves as the
    reference against which both renderers are proved. */
module Document {
  import opened Output

  datatype Node =
    | Element(name: string, attrs: seq<Attr>, children: seq<Node>)
    | Text(text: string)
    | CommentNode(text: string)
    | DirectiveNode(text: string)
    | ProcInstNode(target: string, inst: string)

  /** Some node of `ns` is an element. */
  predicate HasElement(ns: seq<Node>) {
    exists i :: 0 <= i < |ns| && ns[i].Element?
  }

  /** The depth of the last start tag met while reading `n` at depth `d`
      (the stack length before its push), or `l` if `n` holds none. */
  function LastStart(n: Node, d: nat, l: nat): nat
    decreases n
  {
    if n.Element? then LastStartAll(n.children, d + 1, d) else l
  }

  /** The same for the siblings `ns`, read one after the other at depth `d`. */
  function LastStartAll(ns: seq<Node>, d: nat, l: nat): nat
    decreases ns
  {
    if ns == [] then l else LastStartAll(ns[1..], d, LastStart(ns[0], d, l))
  }

  /** A node read at depth `d` leaves the last start at depth `d` or deeper
      when it is an element, and leaves `l` alone otherwise. */
  lemma {:induction false} LastStartBound(n: Node, d: nat, l: nat)
    ensures n.Element? ==> LastStart(n, d, l) >= d
    ensures !n.Element? ==> LastStart(n, d, l) == l
    decreases n
  {
    if n.Element? {
      LastStartAllBound(n.children, d + 1, d);
    }
  }

  /** Siblings read at depth `d` move the last start to depth `d` or deeper
      exactly when one of them is an element. */
  lemma {:induction false} LastStartAllBound(ns: seq<Node>, d: nat, l: nat)
    ensures HasElement(ns) ==> LastStartAll(ns, d, l) >= d
    ensures !HasElement(ns) ==> LastStartAll(ns, d, l) == l
    decreases ns
  {
    if ns != [] {
      LastStartBound(ns[0], d, l);
      var l' := LastStart(ns[0], d, l);
      LastStartAllBound(ns[1..], d, l');
      if ns[0].Element? {
        assert HasElement(ns);
      } else {
        assert HasElement(ns) <==> HasElement(ns[1..]) by {
          if HasElement(ns) {
            var i :| 0 <= i < |ns| && ns[i].Element?;
            assert ns[1..][i - 1].Element?;
          }
          if HasElement(ns[1..]) {
            var i :| 0 <= i < |ns[1..]| && ns[1..][i].Element?;
            assert ns[i + 1].Element?;
          }
        }
      }
    }
  }

  /** Element `name` at depth `d` with children `ns`: after the children its
      end tag is indented, at depth `d`, exactly when it has a child element. */
  lemma CloseIndented(ns: seq<Node>, d: nat)
    ensures d < LastStartAll(ns, d + 1, d) <==> HasElement(ns)
  {
    LastStartAllBound(ns, d + 1, d);
  }

  /** What closes an element at depth `d` whose children are `ns`: fillers back
      to its depth when a child element ended a line, then its end name. */
  function CloseWrites(d: nat, ns: seq<Node>, name: string): (r: seq<Event>)
    ensures r == EndWrites(d, LastStartAll(ns, d + 1, d), name)
  {
    CloseIndented(ns, d);
    (if HasElement(ns) then Indents(d) else []) + [EndName(name)]
  }
}
