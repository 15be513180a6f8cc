/** Properties of the Python content handler over arbitrary callback
    sequences. */
module PyHandlerProperties {
  import opened Output
  import opened PyHandler

  /** Feeding `a + b` is feeding `a`, then `b` from where `a` left off. */
  lemma {:induction false} FeedAppend(st: State, a: seq<SaxEvent>, b: seq<SaxEvent>)
    ensures var ea := Feed(st, a);
      Feed(st, a + b) ==
        if ea.outcome.Halted? then ea
        else
          var eb := Feed(ea.outcome.st, b);
          Effect(eb.outcome, ea.writes + eb.writes)
    decreases |a|
  {
    if a == [] {
      assert a + b == b;
    } else {
      assert (a + b)[0] == a[0] && (a + b)[1..] == a[1..] + b;
      FeedUnfold(st, a);
      FeedUnfold(st, a + b);
      var first := Step(st, a[0]);
      if first.outcome.Done? {
        FeedAppend(first.outcome.st, a[1..], b);
        var ea1 := Feed(first.outcome.st, a[1..]);
        if ea1.outcome.Done? {
          Regroup(first.writes, ea1.writes, Feed(ea1.outcome.st, b).writes);
        }
      }
    }
  }

  /** A single callback is a single step. */
  lemma FeedOne(st: State, e: SaxEvent)
    ensures Feed(st, [e]) == Step(st, e)
  {
    FeedUnfold(st, [e]);
    assert [e][1..] == [];
  }

  /** An end tag with another name on top stops the run with nothing
      written, but the top has already been taken off the stack. */
  lemma MismatchPopsAnyway(st: State, name: string, rest: seq<SaxEvent>)
    requires st.stack != [] && st.stack[|st.stack| - 1] != name
    ensures var e := Feed(st, [EndElement(name)] + rest);
      e.writes == [] && e.outcome == Halted(NotOnTop(name), State(st.stack[..|st.stack| - 1], st.buffer, st.lastWritePos)) &&
      |e.outcome.st.stack| == |st.stack| - 1
  {
    FeedUnfold(st, [EndElement(name)] + rest);
    assert ([EndElement(name)] + rest)[0] == EndElement(name);
  }

  /** The character callbacks for `contents`, one per chunk. */
  function CharacterEvents(contents: seq<string>): (r: seq<SaxEvent>)
    ensures |r| == |contents|
    ensures forall i :: 0 <= i < |r| ==> r[i] == Characters(contents[i])
  {
    if contents == [] then [] else [Characters(contents[0])] + CharacterEvents(contents[1..])
  }

  /** The chunks joined in order. */
  function Concat(contents: seq<string>): string {
    if contents == [] then "" else contents[0] + Concat(contents[1..])
  }

  /** Character data, however the parser cuts it into chunks, only grows the
      buffer by the chunks in order: nothing is written and nothing else
      changes. */
  lemma {:induction false} CharactersOnlyBuffer(st: State, contents: seq<string>)
    ensures Feed(st, CharacterEvents(contents)) ==
      Effect(Done(State(st.stack, st.buffer + Concat(contents), st.lastWritePos)), [])
    decreases |contents|
  {
    if contents == [] {
      assert st.buffer + "" == st.buffer;
    } else {
      var es := CharacterEvents(contents);
      FeedUnfold(st, es);
      assert es[1..] == CharacterEvents(contents[1..]);
      var st' := State(st.stack, st.buffer + contents[0], st.lastWritePos);
      CharactersOnlyBuffer(st', contents[1..]);
      assert st.buffer + contents[0] + Concat(contents[1..]) == st.buffer + Concat(contents);
    }
  }

  /** Character data before the rest of the run only joins the buffer. */
  lemma CharactersThen(st: State, content: string, rest: seq<SaxEvent>)
    ensures Feed(st, [Characters(content)] + rest) ==
      Feed(State(st.stack, st.buffer + content, st.lastWritePos), rest)
  {
    FeedUnfold(st, [Characters(content)] + rest);
    assert ([Characters(content)] + rest)[1..] == rest;
  }

  /** The last end tag of a run, matching the top of the stack: the buffer,
      stripped, then the end tag. */
  lemma CloseLast(stack: seq<string>, buf: string, l: nat, name: string)
    ensures Feed(State(stack + [name], buf, l), [EndElement(name)]) ==
      Effect(Done(State(stack, "", l)), DataWrite(Trim(buf)) + EndWrites(|stack|, l, name))
  {
    FeedOne(State(stack + [name], buf, l), EndElement(name));
    assert (stack + [name])[..|stack|] == stack;
  }

  /** The end of `<a>z</a>` with nothing held back and the last start tag
      one level deeper: `z` stripped, then `/a` with no fillers. */
  lemma BufferedOuter(a: string, z: string)
    ensures Feed(State([a], "", 1), [Characters(z), EndElement(a)]) ==
      Effect(Done(State([], "", 1)), DataWrite(Trim(z)) + [EndName(a)])
  {
    CharactersThen(State([a], "", 1), z, [EndElement(a)]);
    assert [Characters(z)] + [EndElement(a)] == [Characters(z), EndElement(a)];
    assert "" + z == z;
    assert [] + [a] == [a];
    CloseLast([], z, 1, a);
    assert EndWrites(0, 1, a) == [EndName(a)];
  }

  /** The end of `<a>x<b>y</b>z</a>`, inside `b` with `x` held back: both
      texts are written together at `/b`, and `z` at `/a`, which needs no
      fillers since it comes at depth 0. */
  lemma BufferedClose(a: string, b: string, x: string, y: string, z: string)
    ensures Feed(State([a, b], x, 1), [Characters(y), EndElement(b), Characters(z), EndElement(a)]) ==
      Effect(Done(State([], "", 1)), DataWrite(Trim(x + y)) + [EndName(b)] + (DataWrite(Trim(z)) + [EndName(a)]))
  {
    var tail := [Characters(z), EndElement(a)];
    var es := [Characters(y), EndElement(b), Characters(z), EndElement(a)];
    assert es == [Characters(y)] + ([EndElement(b)] + tail);
    CharactersThen(State([a, b], x, 1), y, [EndElement(b)] + tail);
    assert [a, b] == [a] + [b];
    CloseLast([a], x + y, 1, b);
    FeedAppend(State([a, b], x + y, 1), [EndElement(b)], tail);
    BufferedOuter(a, z);
    assert EndWrites(1, 1, b) == [EndName(b)];
  }

  /** A start tag before the rest of the run: the tag is written, then the
      rest runs one level deeper. */
  lemma StartThen(st: State, name: string, attrs: seq<Attr>, rest: seq<SaxEvent>)
    ensures var r := Feed(State(st.stack + [name], st.buffer, |st.stack|), rest);
      Feed(st, [StartElement(name, attrs)] + rest) ==
        Effect(r.outcome, StartWrites(|st.stack|, name, attrs) + r.writes)
  {
    FeedUnfold(st, [StartElement(name, attrs)] + rest);
    assert ([StartElement(name, attrs)] + rest)[1..] == rest;
  }

  /** `<b>y</b>z</a>` inside `<a>` with `x` held back: `b` opens a new line
      one filler deep, and the held-back `x` is not written before it. */
  lemma BufferedInner(a: string, b: string, x: string, y: string, z: string)
    ensures Feed(State([a], x, 0), [StartElement(b, []), Characters(y), EndElement(b), Characters(z), EndElement(a)]) ==
      Effect(Done(State([], "", 1)),
             [Newline, Indent, StartName(b)] + (DataWrite(Trim(x + y)) + [EndName(b)] + (DataWrite(Trim(z)) + [EndName(a)])))
  {
    var e3 := [Characters(y), EndElement(b), Characters(z), EndElement(a)];
    assert [StartElement(b, []), Characters(y), EndElement(b), Characters(z), EndElement(a)] == [StartElement(b, [])] + e3;
    StartThen(State([a], x, 0), b, [], e3);
    assert [a] + [b] == [a, b];
    BufferedClose(a, b, x, y, z);
    assert StartWrites(1, b, []) == [Newline, Indent, StartName(b)];
  }

  /** `x<b>y</b>z</a>` just after the start of `a`: `x` is only held back. */
  lemma BufferedAfterStart(a: string, b: string, x: string, y: string, z: string)
    ensures Feed(State([a], "", 0), [Characters(x), StartElement(b, []), Characters(y), EndElement(b), Characters(z), EndElement(a)]) ==
      Effect(Done(State([], "", 1)),
             [Newline, Indent, StartName(b)] + (DataWrite(Trim(x + y)) + [EndName(b)] + (DataWrite(Trim(z)) + [EndName(a)])))
  {
    var e2 := [StartElement(b, []), Characters(y), EndElement(b), Characters(z), EndElement(a)];
    assert [Characters(x), StartElement(b, []), Characters(y), EndElement(b), Characters(z), EndElement(a)] ==
           [Characters(x)] + e2;
    CharactersThen(State([a], "", 0), x, e2);
    assert "" + x == x;
    BufferedInner(a, b, x, y, z);
  }

  /** `<a>x<b>y</b>z</a>`: the text before the child element is held back and
      written together with the child's own text, at the child's end tag;
      the text after it is written at the parent's end tag. */
  lemma BufferedScenario(a: string, b: string, x: string, y: string, z: string)
    ensures var es := [StartElement(a, []), Characters(x), StartElement(b, []), Characters(y),
                       EndElement(b), Characters(z), EndElement(a)];
      Feed(Initial, es) ==
        Effect(Done(State([], "", 1)),
               [Newline, StartName(a)] + ([Newline, Indent, StartName(b)] +
               (DataWrite(Trim(x + y)) + [EndName(b)] + (DataWrite(Trim(z)) + [EndName(a)]))))
  {
    var e1 := [Characters(x), StartElement(b, []), Characters(y), EndElement(b), Characters(z), EndElement(a)];
    assert [StartElement(a, []), Characters(x), StartElement(b, []), Characters(y),
            EndElement(b), Characters(z), EndElement(a)] == [StartElement(a, [])] + e1;
    StartThen(Initial, a, [], e1);
    assert [] + [a] == [a];
    BufferedAfterStart(a, b, x, y, z);
    assert StartWrites(0, a, []) == [Newline, StartName(a)];
  }
}
