/** The renderer of xmlParse.go: the token loop of `main` with `push`, `pop`
    and the write helpers, over tokens that `encoding/xml` delivers. */
module GoRender {
  import opened Output
  import GoArgs

  /** One result of `Decoder.Token`: the five kinds the switch handles, the
      processing instruction it lets fall through, and a decoding error other
      than end of input. */
  datatype Token =
    | StartElement(name: string, attrs: seq<Attr>)
    | EndElement(name: string)
    | CharData(text: string)
    | CommentToken(text: string)
    | DirectiveToken(text: string)
    | ProcInst(target: string, inst: string)
    | DecodeError(message: string)

  /** Why a run ends early. */
  datatype Failure =
    | NotOnTop(name: string)       // `pop` saw another name on top: exit 4
    | NilTop(name: string)         // `pop` on an empty stack: `s.Back()` is nil
    | Undecodable(message: string) // the decoder failed: exit 3

  /** The process status each failure ends with; a nil dereference is a Go
      run-time panic, which exits with status 2. */
  function ExitCode(f: Failure): int {
    match f
    case NotOnTop(_) => 4
    case NilTop(_) => 2
    case Undecodable(_) => 3
  }

  /** The renderer's state: the open element names, top last, and the depth
      of the last start tag (`nLastWritePos`). */
  datatype State = State(stack: seq<string>, lastWritePos: nat)

  const Initial := State([], 0)


  /** One turn of the token loop: the case of the switch for `t`. */
  function Step(showComments: bool, st: State, t: Token): Effect<State, Failure>
  {
    match t
    case StartElement(name, attrs) =>
      var pos := |st.stack|;
      Effect(Done(State(st.stack + [name], pos)), StartWrites(pos, name, attrs))
    case EndElement(name) =>
      if st.stack == [] then Effect(Halted(NilTop(name), st), [])
      else if st.stack[|st.stack| - 1] != name then Effect(Halted(NotOnTop(name), st), [])
      else
        var stack := st.stack[..|st.stack| - 1];
        Effect(Done(State(stack, st.lastWritePos)), EndWrites(|stack|, st.lastWritePos, name))
    case CharData(text) =>
      Effect(Done(st), DataWrite(Trim(text)))
    case CommentToken(text) =>
      Effect(Done(st), if showComments then [Comment(text)] else [])
    case DirectiveToken(text) =>
      Effect(Done(st), [Directive(text)])
    case ProcInst(_, _) =>
      Effect(Done(st), [])
    case DecodeError(message) =>
      Effect(Halted(Undecodable(message), st), [])
  }

  /** One turn fails exactly on a decoding error and on an end tag whose
      name is not on top of the stack, and then writes nothing and changes
      nothing; only a start tag moves the last write position, to the depth
      before its push. */
  lemma StepContract(showComments: bool, st: State, t: Token)
    ensures var r := Step(showComments, st, t);
      (r.outcome.Halted? <==>
        t.DecodeError? || (t.EndElement? && (st.stack == [] || st.stack[|st.stack| - 1] != t.name))) &&
      (r.outcome.Halted? ==> r.outcome.st == st && r.writes == []) &&
      (!t.StartElement? ==> r.outcome.st.lastWritePos == st.lastWritePos) &&
      (t.StartElement? ==> r.outcome.st == State(st.stack + [t.name], |st.stack|)) &&
      (t.EndElement? && r.outcome.Done? ==> r.outcome.st.stack + [t.name] == st.stack) &&
      (t.CharData? && AllSpace(t.text) ==> r == Effect(Done(st), [])) &&
      (t.CommentToken? ==> r == Effect(Done(st), if showComments then [Comment(t.text)] else [])) &&
      (t.DirectiveToken? ==> r == Effect(Done(st), [Directive(t.text)]))
  {
  }

  /** The token loop over `ts`, up to the end of the tokens or the first
      failure; what was written before a failure stays written. */
  function Feed(showComments: bool, st: State, ts: seq<Token>): Effect<State, Failure>
    decreases |ts|
  {
    if ts == [] then Effect(Done(st), [])
    else
      var first := Step(showComments, st, ts[0]);
      if first.outcome.Halted? then first
      else
        var rest := Feed(showComments, first.outcome.st, ts[1..]);
        Effect(rest.outcome, first.writes + rest.writes)
  }

  /** A whole run from the empty stack; a run that reaches the end of the
      tokens restores normal printing and ends the line. */
  function Rendered(showComments: bool, ts: seq<Token>): Effect<State, Failure> {
    var e := Feed(showComments, Initial, ts);
    if e.outcome.Done? then Effect(e.outcome, e.writes + [Reset, Newline]) else e
  }

  /** The first turn of the loop, then the rest. */
  lemma FeedUnfold(showComments: bool, st: State, ts: seq<Token>)
    requires ts != []
    ensures var first := Step(showComments, st, ts[0]);
      Feed(showComments, st, ts) ==
        if first.outcome.Halted? then first
        else
          var rest := Feed(showComments, first.outcome.st, ts[1..]);
          Effect(rest.outcome, first.writes + rest.writes)
  {
  }

  class Renderer {
    var stack: seq<string>
    var lastWritePos: nat
    var out: seq<Event>
    const showComments: bool

    ghost function Snapshot(): State
      reads this
    {
      State(stack, lastWritePos)
    }

    constructor (showComments: bool)
      ensures this.showComments == showComments && Snapshot() == Initial && out == []
    {
      this.showComments := showComments;
      stack, lastWritePos, out := [], 0, [];
    }

    /** `push`: the stack length before the push, and `name` on top. */
    method Push(name: string) returns (pos: nat)
      modifies this`stack
      ensures pos == |old(stack)| && stack == old(stack) + [name]
    {
      pos := |stack|;
      stack := stack + [name];
    }

    /** `pop`: removes the top only when it is `name` and returns the new
      length; otherwise the run ends and the stack is left as it was. */
    method Pop(name: string) returns (r: Result<nat, Failure>)
      modifies this`stack
      ensures old(stack) == [] ==> r == Err(NilTop(name)) && stack == old(stack)
      ensures old(stack) != [] && old(stack)[|old(stack)| - 1] != name ==>
        r == Err(NotOnTop(name)) && stack == old(stack)
      ensures old(stack) != [] && old(stack)[|old(stack)| - 1] == name ==>
        stack + [name] == old(stack) && r == Ok(|old(stack)| - 1)
    {
      if stack == [] {
        return Err(NilTop(name));
      }
      if stack[|stack| - 1] != name {
        return Err(NotOnTop(name));
      }
      stack := stack[..|stack| - 1];
      r := Ok(|stack|);
    }

    /** `writeSpaces(pos, "   ")`: `pos` fillers. */
    method WriteSpaces(pos: nat)
      modifies this`out
      ensures out == old(out) + Indents(pos)
    {
      for i := 0 to pos
        invariant out == old(out) + Indents(i)
      {
        out := out + [Indent];
      }
    }

    /** The `xml.StartElement` case: push, then a line break, the fillers for
      the depth before the push, the name and the attributes in order. */
    method StartElement(name: string, attrs: seq<Attr>)
      modifies this
      ensures stack == old(stack) + [name] && lastWritePos == |old(stack)|
      ensures out == old(out) + StartWrites(|old(stack)|, name, attrs)
    {
      var pos := Push(name);
      out := out + [Newline];
      WriteSpaces(pos);
      out := out + [StartName(name)];
      for i := 0 to |attrs|
        invariant out == old(out) + [Newline] + Indents(pos) + [StartName(name)] + AttrEvents(attrs[..i])
        invariant stack == old(stack) + [name] && lastWritePos == old(lastWritePos)
      {
        assert attrs[..i + 1][..i] == attrs[..i];
        out := out + [AttrPair(attrs[i].name, attrs[i].value)];
      }
      assert attrs[..|attrs|] == attrs;
      lastWritePos := pos;
    }

    /** The `xml.EndElement` case: pop, then fillers only when the depth after
      the pop is below the last write position, then the end name. */
    method EndElement(name: string) returns (r: Result<(), Failure>)
      modifies this
      ensures lastWritePos == old(lastWritePos)
      ensures r.Err? <==> old(stack) == [] || old(stack)[|old(stack)| - 1] != name
      ensures r.Err? ==> r.failure == (if old(stack) == [] then NilTop(name) else NotOnTop(name))
      ensures r.Err? ==> stack == old(stack) && out == old(out)
      ensures r.Ok? ==> stack + [name] == old(stack) && out == old(out) + EndWrites(|stack|, lastWritePos, name)
    {
      var popped := Pop(name);
      if popped.Err? {
        return Err(popped.failure);
      }
      var pos := popped.value;
      if pos < lastWritePos {
        WriteSpaces(pos);
      }
      out := out + [EndName(name)];
      r := Ok(());
    }

    /** One case of the switch on the token's type. */
    method Consume(t: Token) returns (r: Result<(), Failure>)
      modifies this
      ensures var e := Step(showComments, old(Snapshot()), t);
        Snapshot() == e.outcome.st && out == old(out) + e.writes &&
        (r.Err? <==> e.outcome.Halted?) && (r.Err? ==> r.failure == e.outcome.failure)
    {
      match t
      case StartElement(name, attrs) =>
        StartElement(name, attrs);
        r := Ok(());
      case EndElement(name) =>
        r := EndElement(name);
        if r.Ok? {
          assert stack == old(stack)[..|old(stack)| - 1];
        }
      case CharData(text) =>
        var data := Trim(text);
        if data != "" {
          out := out + [Data(data)];
        }
        r := Ok(());
      case CommentToken(text) =>
        if showComments {
          out := out + [Comment(text)];
        }
        r := Ok(());
      case DirectiveToken(text) =>
        out := out + [Directive(text)];
        r := Ok(());
      case ProcInst(_, _) =>
        r := Ok(());
      case DecodeError(message) =>
        r := Err(Undecodable(message));
    }

    /** One turn of the token loop over `ts`: what it writes and where it
      leaves the renderer agree with the first step of `Feed`. */
    method Turn(ts: seq<Token>) returns (r: Result<(), Failure>)
      requires ts != []
      modifies this
      ensures var all := Feed(showComments, old(Snapshot()), ts);
        if r.Err? then all == Effect(Halted(r.failure, Snapshot()), []) && out == old(out)
        else
          var rest := Feed(showComments, Snapshot(), ts[1..]);
          all.outcome == rest.outcome && old(out) + all.writes == out + rest.writes
    {
      ghost var st, first := Snapshot(), Step(showComments, Snapshot(), ts[0]);
      FeedUnfold(showComments, st, ts);
      r := Consume(ts[0]);
      if r.Err? {
        StepContract(showComments, st, ts[0]);
      } else {
        Regroup(old(out), first.writes, Feed(showComments, Snapshot(), ts[1..]).writes);
      }
    }

    /** The token loop of `main` and the writes after it. */
    method Render(tokens: seq<Token>) returns (r: Result<(), Failure>)
      modifies this
      ensures var e := Feed(showComments, old(Snapshot()), tokens);
        Snapshot() == e.outcome.st &&
        (r.Err? <==> e.outcome.Halted?) && (r.Err? ==> r.failure == e.outcome.failure) &&
        out == old(out) + e.writes + (if r.Ok? then [Reset, Newline] else [])
    {
      var i := 0;
      while i < |tokens|
        invariant 0 <= i <= |tokens|
        invariant var e, rest := Feed(showComments, old(Snapshot()), tokens), Feed(showComments, Snapshot(), tokens[i..]);
          e.outcome == rest.outcome && old(out) + e.writes == out + rest.writes
      {
        ghost var before := Snapshot();
        var step := Turn(tokens[i..]);
        if step.Err? {
          assert Feed(showComments, before, tokens[i..]) == Effect(Halted(step.failure, Snapshot()), []);
          return Err(step.failure);
        }
        assert tokens[i..][1..] == tokens[i + 1..];
        i := i + 1;
      }
      assert tokens[i..] == [];
      out := out + [Reset, Newline];
      r := Ok(());
    }
  }

  /** `main`: classify the arguments, open the file (one of `openable` opens,
      any other fails with status 2), then render the tokens the decoder
      delivers for it. Returns the process status and what was written. */
  method Execute(args: seq<string>, openable: set<string>, tokens: seq<Token>)
    returns (status: int, out: seq<Event>)
    ensures match GoArgs.Classify(args)
      case Usage(code) => status == code && out == []
      case Parse(fileArg, showComments) =>
        if args[fileArg] !in openable then status == 2 && out == []
        else
          var e := Rendered(showComments, tokens);
          out == e.writes && status == if e.outcome.Done? then 0 else ExitCode(e.outcome.failure)
  {
    var invocation := GoArgs.Classify(args);
    if invocation.Usage? {
      return invocation.exitCode, [];
    }
    if args[invocation.fileArg] !in openable {
      return 2, [];
    }
    var renderer := new Renderer(invocation.showComments);
    var r := renderer.Render(tokens);
    status := if r.Ok? then 0 else ExitCode(r.failure);
    out := renderer.out;
  }
}

/** Properties of the Go token loop over arbitrary token sequences. */
module GoRenderProperties {
  import opened Output
  import opened GoRender

  /** Feeding `a + b` is feeding `a`, then `b` from where `a` left off. */
  lemma {:induction false} FeedAppend(showComments: bool, st: State, a: seq<Token>, b: seq<Token>)
    ensures var ea := Feed(showComments, st, a);
      Feed(showComments, st, a + b) ==
        if ea.outcome.Halted? then ea
        else
          var eb := Feed(showComments, ea.outcome.st, b);
          Effect(eb.outcome, ea.writes + eb.writes)
    decreases |a|
  {
    if a == [] {
      assert a + b == b;
    } else {
      assert (a + b)[0] == a[0] && (a + b)[1..] == a[1..] + b;
      FeedUnfold(showComments, st, a);
      FeedUnfold(showComments, st, a + b);
      var first := Step(showComments, st, a[0]);
      if first.outcome.Done? {
        FeedAppend(showComments, first.outcome.st, a[1..], b);
        var ea1 := Feed(showComments, first.outcome.st, a[1..]);
        if ea1.outcome.Done? {
          Regroup(first.writes, ea1.writes, Feed(showComments, ea1.outcome.st, b).writes);
        }
      }
    }
  }

  /** An end tag whose name is not on top halts the run at once, before
      anything is written for it, and nothing after it is looked at. */
  lemma MismatchHalts(showComments: bool, st: State, name: string, rest: seq<Token>)
    requires st.stack != [] && st.stack[|st.stack| - 1] != name
    ensures Feed(showComments, st, [EndElement(name)] + rest) == Effect(Halted(NotOnTop(name), st), [])
  {
    assert ([EndElement(name)] + rest)[0] == EndElement(name);
  }

  /** The writes with every comment write removed. */
  function DropComments(es: seq<Event>): (r: seq<Event>)
    ensures forall i :: 0 <= i < |r| ==> !r[i].Comment?
  {
    if es == [] then []
    else (if es[0].Comment? then [] else [es[0]]) + DropComments(es[1..])
  }

  lemma {:induction false} DropCommentsAppend(a: seq<Event>, b: seq<Event>)
    ensures DropComments(a + b) == DropComments(a) + DropComments(b)
  {
    if a == [] {
      assert a + b == b;
    } else {
      assert (a + b)[1..] == a[1..] + b;
      DropCommentsAppend(a[1..], b);
    }
  }

  /** Dropping comments from writes that hold none changes nothing. */
  lemma {:induction false} NoCommentsKept(es: seq<Event>)
    requires forall i :: 0 <= i < |es| ==> !es[i].Comment?
    ensures DropComments(es) == es
  {
    if es != [] {
      NoCommentsKept(es[1..]);
    }
  }

  /** One token with comments hidden does what it does with comments shown,
      less the comment write. */
  lemma StepCommentsOnly(st: State, t: Token)
    ensures var a := Step(true, st, t);
      Step(false, st, t) == Effect(a.outcome, DropComments(a.writes))
  {
    var a := Step(true, st, t);
    match t {
      case StartElement(name, attrs) => StartWritesShape(|st.stack|, name, attrs);
      case EndElement(name) =>
        if st.stack != [] {
          EndWritesShape(|st.stack| - 1, st.lastWritePos, name);
        }
      case _ =>
    }
    if !t.CommentToken? {
      NoCommentsKept(a.writes);
    }
  }

  /** The token loop with comments hidden (`-i`) ends the same way as with
      comments shown, and writes the same less the comments. */
  lemma {:induction false} FeedCommentsOnly(st: State, ts: seq<Token>)
    ensures var a := Feed(true, st, ts);
      Feed(false, st, ts) == Effect(a.outcome, DropComments(a.writes))
    decreases |ts|
  {
    if ts != [] {
      StepCommentsOnly(st, ts[0]);
      var first := Step(true, st, ts[0]);
      if first.outcome.Done? {
        FeedCommentsOnly(first.outcome.st, ts[1..]);
        DropCommentsAppend(first.writes, Feed(true, first.outcome.st, ts[1..]).writes);
      }
    }
  }

  /** Hiding comments changes only comment output: both runs end the same
      way, the hidden run writes no comment at all, and its output is the
      shown run's output less its comments. */
  lemma HidingCommentsDropsOnlyComments(ts: seq<Token>)
    ensures var a, b := Rendered(true, ts), Rendered(false, ts);
      b.outcome == a.outcome && b.writes == DropComments(a.writes) &&
      forall i :: 0 <= i < |b.writes| ==> !b.writes[i].Comment?
  {
    FeedCommentsOnly(Initial, ts);
    var a := Feed(true, Initial, ts);
    if a.outcome.Done? {
      DropCommentsAppend(a.writes, [Reset, Newline]);
      assert DropComments([Reset, Newline]) == [Reset, Newline];
    }
  }

  /** The second half of `<a><b>text</b></a>`: after the text, `/b` follows on
      the same line, and `/a` needs no fillers since it comes at depth 0. */
  lemma NestedClose(a: string, b: string, text: string)
    requires Trimmed(text)
    ensures Feed(true, State([a, b], 1), [CharData(text), EndElement(b), EndElement(a)]) ==
      Effect(Done(State([], 1)), [Data(text), EndName(b), EndName(a)])
  {
    var s2, s4, s5 := State([a, b], 1), State([a], 1), State([], 1);
    var t4 := [EndElement(a)];
    var t3 := [EndElement(b)] + t4;
    var t2 := [CharData(text)] + t3;
    assert t4[1..] == [] && t3[1..] == t4 && t2[1..] == t3;
    FeedUnfold(true, s4, t4);
    assert Feed(true, s4, t4) == Effect(Done(s5), [EndName(a)]);
    assert [a, b][..1] == [a];
    FeedUnfold(true, s2, t3);
    assert Feed(true, s2, t3) == Effect(Done(s5), [EndName(b), EndName(a)]);
    TrimUntouched(text);
    FeedUnfold(true, s2, t2);
    assert t2 == [CharData(text), EndElement(b), EndElement(a)];
  }

  /** `<b>text</b></a>` inside `<a>`: `b` opens a new line one filler deep. */
  lemma NestedInner(a: string, b: string, text: string)
    requires Trimmed(text)
    ensures Feed(true, State([a], 0), [StartElement(b, []), CharData(text), EndElement(b), EndElement(a)]) ==
      Effect(Done(State([], 1)), [Newline, Indent, StartName(b), Data(text), EndName(b), EndName(a)])
  {
    var t2 := [CharData(text), EndElement(b), EndElement(a)];
    var t1 := [StartElement(b, [])] + t2;
    assert t1[1..] == t2;
    NestedClose(a, b, text);
    assert Indents(1) == [Indent];
    assert [a] + [b] == [a, b];
    FeedUnfold(true, State([a], 0), t1);
    assert t1 == [StartElement(b, []), CharData(text), EndElement(b), EndElement(a)];
  }

  /** `<a><b>text</b></a>`: the inner end tag follows its text on the same
      line, the outer one comes back to depth 0 after the line break that
      ends `/b`. */
  lemma NestedScenario(a: string, b: string, text: string)
    requires Trimmed(text)
    ensures Rendered(true, [StartElement(a, []), StartElement(b, []), CharData(text),
                            EndElement(b), EndElement(a)]) ==
      Effect(Done(State([], 1)), [Newline, StartName(a), Newline, Indent, StartName(b), Data(text),
                                  EndName(b), EndName(a), Reset, Newline])
  {
    var t1 := [StartElement(b, []), CharData(text), EndElement(b), EndElement(a)];
    var t0 := [StartElement(a, [])] + t1;
    assert t0[1..] == t1;
    NestedInner(a, b, text);
    assert [] + [a] == [a];
    FeedUnfold(true, Initial, t0);
    assert t0 == [StartElement(a, []), StartElement(b, []), CharData(text), EndElement(b), EndElement(a)];
  }
}
