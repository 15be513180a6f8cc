/** The renderer of xmlParse.py: the SAX content handler `XmlContentHandler`,
    over the callbacks `xml.sax` makes for a document. Unlike the Go renderer
    it collects character data in a buffer and writes it only at the next
    end tag. */
module PyHandler {
  import opened Output

  /** One callback of the SAX parser into the handler. */
  datatype SaxEvent =
    | StartElement(name: string, attrs: seq<Attr>)
    | EndElement(name: string)
    | Characters(content: string)

  /** Why a run ends early: `list.pop` on an empty stack raises `IndexError`;
      an end tag whose name was not on top takes the error path of
      `popElementFromStack`. */
  datatype Failure =
    | PopFromEmpty(name: string)
    | NotOnTop(name: string)

  /** The handler's fields: the open element names (top last), the character
      buffer and the depth of the last start tag. */
  datatype State = State(stack: seq<string>, buffer: string, lastWritePos: nat)

  const Initial := State([], "", 0)

  /** One callback. An end tag pops before it compares names, so a mismatch
      leaves the stack popped; a matching end tag writes the trimmed buffer,
      then fillers when the depth after the pop is below the last start tag,
      then the end name, and empties the buffer. */
  function Step(st: State, e: SaxEvent): Effect<State, Failure> {
    match e
    case StartElement(name, attrs) =>
      var pos := |st.stack|;
      Effect(Done(State(st.stack + [name], st.buffer, pos)), StartWrites(pos, name, attrs))
    case EndElement(name) =>
      if st.stack == [] then Effect(Halted(PopFromEmpty(name), st), [])
      else
        var stack := st.stack[..|st.stack| - 1];
        if st.stack[|st.stack| - 1] != name then
          Effect(Halted(NotOnTop(name), State(stack, st.buffer, st.lastWritePos)), [])
        else
          Effect(Done(State(stack, "", st.lastWritePos)),
                 DataWrite(Trim(st.buffer)) + EndWrites(|stack|, st.lastWritePos, name))
    case Characters(content) =>
      Effect(Done(State(st.stack, st.buffer + content, st.lastWritePos)), [])
  }

  /** What one callback does to the handler's fields: only a start tag moves
      the last write position, only character data grows the buffer, and an
      end tag always takes the top off a non-empty stack; a run stops exactly
      at an end tag on an empty stack or with another name on top, with
      nothing written for it. */
  lemma StepContract(st: State, e: SaxEvent)
    ensures var r := Step(st, e);
      (r.outcome.Halted? <==>
        e.EndElement? && (st.stack == [] || st.stack[|st.stack| - 1] != e.name)) &&
      (r.outcome.Halted? ==> r.writes == [] && r.outcome.st.buffer == st.buffer) &&
      (e.EndElement? && st.stack != [] ==> r.outcome.st.stack + [st.stack[|st.stack| - 1]] == st.stack) &&
      (e.EndElement? && r.outcome.Done? ==> r.outcome.st.buffer == "") &&
      (!e.StartElement? ==> r.outcome.st.lastWritePos == st.lastWritePos) &&
      (e.StartElement? ==> r.outcome.st == State(st.stack + [e.name], st.buffer, |st.stack|)) &&
      (e.Characters? ==> r == Effect(Done(State(st.stack, st.buffer + e.content, st.lastWritePos)), []))
  {
    if e.EndElement? && st.stack != [] {
      assert st.stack[..|st.stack| - 1] + [st.stack[|st.stack| - 1]] == st.stack;
    }
  }

  /** The callbacks `es` in order, up to the end or the first failure. */
  function Feed(st: State, es: seq<SaxEvent>): Effect<State, Failure>
    decreases |es|
  {
    if es == [] then Effect(Done(st), [])
    else
      var first := Step(st, es[0]);
      if first.outcome.Halted? then first
      else
        var rest := Feed(first.outcome.st, es[1..]);
        Effect(rest.outcome, first.writes + rest.writes)
  }

  /** The first callback, then the rest. */
  lemma FeedUnfold(st: State, es: seq<SaxEvent>)
    requires es != []
    ensures var first := Step(st, es[0]);
      Feed(st, es) ==
        if first.outcome.Halted? then first
        else
          var rest := Feed(first.outcome.st, es[1..]);
          Effect(rest.outcome, first.writes + rest.writes)
  {
  }

  /** The escape that restores normal printing, the report's first operand. */
  const White := "\U{1B}[0;37;40m"

  /** The format of the mismatch report, cut at its two conversions. */
  const MismatchFormat := "%s" + ("\nelement " + ("%s" + " was not at the top of the stack\n\n"))

  /** The number of `%s` conversions in a format. */
  function Conversions(f: string): nat {
    if |f| < 2 then 0
    else if f[0] == '%' && f[1] == 's' then 1 + Conversions(f[2..])
    else Conversions(f[1..])
  }

  /** Python's `f % operands` for formats whose only conversions are `%s`:
      each `%s` takes the next operand; too few or too many operands raise
      `TypeError`, and a format without conversions and without operands is
      its own result. */
  function Format(f: string, operands: seq<string>): (r: Result<string, ()>)
    ensures r.Ok? <==> |operands| == Conversions(f)
    ensures Conversions(f) == 0 && operands == [] ==> r == Ok(f)
  {
    if |f| < 2 then
      if operands == [] then Ok(f) else Err(())
    else if f[0] == '%' && f[1] == 's' then
      if operands == [] then Err(())
      else
        var rest := Format(f[2..], operands[1..]);
        if rest.Err? then rest else Ok(operands[0] + rest.value)
    else
      var rest := Format(f[1..], operands);
      assert rest.Ok? && operands == [] ==> [f[0]] + rest.value == f by {
        if rest.Ok? && Conversions(f) == 0 && operands == [] {
          assert [f[0]] + f[1..] == f;
        }
      }
      if rest.Err? then rest else Ok([f[0]] + rest.value)
  }

  lemma ConversionFirst(b: string)
    ensures Conversions("%s" + b) == 1 + Conversions(b)
  {
    assert ("%s" + b)[2..] == b;
  }

  /** Text without `%` adds no conversion. */
  lemma {:induction false} ConversionsSkip(a: string, b: string)
    requires '%' !in a
    ensures Conversions(a + b) == Conversions(b)
  {
    if a == [] {
      assert a + b == b;
    } else {
      assert (a + b)[0] == a[0] && (a + b)[1..] == a[1..] + b;
      assert a[0] in a;
      ConversionsSkip(a[1..], b);
      if |a + b| < 2 {
        assert a == [a[0]] && b == [];
      }
    }
  }

  /** The mismatch report has exactly two conversions. */
  lemma MismatchConversions()
    ensures Conversions(MismatchFormat) == 2
  {
    var tail := " was not at the top of the stack\n\n";
    assert '%' !in tail;
    assert '%' !in "\nelement ";
    ConversionFirst("\nelement " + ("%s" + tail));
    ConversionsSkip("\nelement ", "%s" + tail);
    ConversionFirst(tail);
    ConversionsSkip(tail, []);
    assert tail + [] == tail;
  }

  /** The mismatch report as written formats with the colour reset alone, so
      the `%` raises before the report is printed and `sys.exit(4)` is never
      reached: the uncaught `TypeError` ends the process with status 1. */
  function ExitStatusAsWritten(f: Failure): int {
    match f
    case PopFromEmpty(_) => 1
    case NotOnTop(name) => if Format(MismatchFormat, [White]).Ok? then 4 else 1
  }

  /** The exit status once the report is given both its operands: a mismatch
      ends the run with status 4, as in the Go version; a pop from an empty
      stack raises `IndexError`, which exits with status 1. */
  function ExitStatus(f: Failure): int {
    match f
    case PopFromEmpty(_) => 1
    case NotOnTop(name) => if Format(MismatchFormat, [White, name]).Ok? then 4 else 1
  }

  /** The report as written cannot be formatted, whatever the colour escape
      is, so a mismatch exits with 1 instead of 4. */
  lemma MismatchReportRaises(white: string, name: string)
    ensures Format(MismatchFormat, [white]).Err?
    ensures ExitStatusAsWritten(NotOnTop(name)) == 1
  {
    MismatchConversions();
  }

  /** With both operands the report formats, so a mismatch reaches
      `sys.exit(4)`. */
  lemma MismatchReportFormats(white: string, name: string)
    ensures Format(MismatchFormat, [white, name]).Ok?
    ensures ExitStatus(NotOnTop(name)) == 4
  {
    MismatchConversions();
  }

  class ContentHandler {
    var elementStack: seq<string>
    var charBuffer: string
    var lastWritePos: nat
    var out: seq<Event>

    ghost function Snapshot(): State
      reads this
    {
      State(elementStack, charBuffer, lastWritePos)
    }

    constructor ()
      ensures Snapshot() == Initial && out == []
    {
      elementStack, charBuffer, lastWritePos, out := [], "", 0, [];
    }

    /** `pushElementToStack`: the length before the push, and `name` on top. */
    method PushElementToStack(name: string) returns (pos: nat)
      modifies this`elementStack
      ensures pos == |old(elementStack)| && elementStack == old(elementStack) + [name]
    {
      pos := |elementStack|;
      elementStack := elementStack + [name];
    }

    /** `popElementFromStack`: the top is removed before the names are
      compared, so even a mismatch leaves the stack popped; a match returns
      the length after the pop. */
    method PopElementFromStack(name: string) returns (r: Result<nat, Failure>)
      modifies this`elementStack
      ensures old(elementStack) == [] ==> r == Err(PopFromEmpty(name)) && elementStack == []
      ensures old(elementStack) != [] ==>
        elementStack + [old(elementStack)[|old(elementStack)| - 1]] == old(elementStack) &&
        if old(elementStack)[|old(elementStack)| - 1] == name then r == Ok(|elementStack|)
        else r == Err(NotOnTop(name))
    {
      if elementStack == [] {
        return Err(PopFromEmpty(name));
      }
      var top := elementStack[|elementStack| - 1];
      elementStack := elementStack[..|elementStack| - 1];
      if name == top {
        r := Ok(|elementStack|);
      } else {
        r := Err(NotOnTop(name));
      }
    }

    /** `writeSpaces(pos, '   ')`: `pos` fillers. */
    method WriteSpaces(pos: nat)
      modifies this`out
      ensures out == old(out) + Indents(pos)
    {
      for i := 0 to pos
        invariant out == old(out) + Indents(i)
      {
        out := out + [Indent];
      }
    }

    /** `writeElementData`: one data write, unless the data is empty. */
    method WriteElementData(data: string)
      modifies this`out
      ensures out == old(out) + DataWrite(data)
    {
      if data != "" {
        out := out + [Data(data)];
      }
    }

    /** `getCharacterData`: the buffer stripped of its white space at both
      ends, leaving the buffer empty. */
    method GetCharacterData() returns (data: string)
      modifies this`charBuffer
      ensures data == Trim(old(charBuffer)) && charBuffer == ""
    {
      data := Trim(charBuffer);
      charBuffer := "";
    }

    /** `characters`: the content goes to the end of the buffer, and nothing
      is written. */
    method Characters(content: string)
      modifies this`charBuffer
      ensures charBuffer == old(charBuffer) + content
    {
      charBuffer := charBuffer + content;
    }

    /** `startElement`: push, then a line break, the fillers for the depth
      before the push, the name and the attributes in order; the buffer is
      left alone. */
    method StartElement(name: string, attrs: seq<Attr>)
      modifies this
      ensures elementStack == old(elementStack) + [name] && lastWritePos == |old(elementStack)|
      ensures charBuffer == old(charBuffer)
      ensures out == old(out) + StartWrites(|old(elementStack)|, name, attrs)
    {
      var pos := PushElementToStack(name);
      out := out + [Newline];
      WriteSpaces(pos);
      out := out + [StartName(name)];
      for i := 0 to |attrs|
        invariant out == old(out) + [Newline] + Indents(pos) + [StartName(name)] + AttrEvents(attrs[..i])
        invariant elementStack == old(elementStack) + [name] && lastWritePos == old(lastWritePos)
        invariant charBuffer == old(charBuffer)
      {
        assert attrs[..i + 1][..i] == attrs[..i];
        out := out + [AttrPair(attrs[i].name, attrs[i].value)];
      }
      assert attrs[..|attrs|] == attrs;
      lastWritePos := pos;
    }

    /** `endElement`: pop, then the buffered data, then fillers only when the
      depth after the pop is below the last write position, then the end
      name. */
    method EndElement(name: string) returns (r: Result<(), Failure>)
      modifies this
      ensures var e := Step(old(Snapshot()), SaxEvent.EndElement(name));
        Snapshot() == e.outcome.st && out == old(out) + e.writes &&
        (r.Err? <==> e.outcome.Halted?) && (r.Err? ==> r.failure == e.outcome.failure)
    {
      ghost var st := Snapshot();
      var popped := PopElementFromStack(name);
      if popped.Err? {
        return Err(popped.failure);
      }
      var pos := popped.value;
      assert elementStack == st.stack[..|st.stack| - 1];
      var data := GetCharacterData();
      WriteElementData(data);
      ghost var written := out;
      if pos < lastWritePos {
        WriteSpaces(pos);
      }
      out := out + [EndName(name)];
      if pos < st.lastWritePos {
        Regroup(written, Indents(pos), [EndName(name)]);
      } else {
        assert [] + [EndName(name)] == [EndName(name)];
      }
      Regroup(old(out), DataWrite(Trim(st.buffer)), EndWrites(pos, st.lastWritePos, name));
      assert Step(st, SaxEvent.EndElement(name)) ==
        Effect(Done(State(elementStack, "", st.lastWritePos)), DataWrite(Trim(st.buffer)) + EndWrites(pos, st.lastWritePos, name));
      r := Ok(());
    }

    /** The callback `xml.sax` makes for `e`. */
    method Handle(e: SaxEvent) returns (r: Result<(), Failure>)
      modifies this
      ensures var s := Step(old(Snapshot()), e);
        Snapshot() == s.outcome.st && out == old(out) + s.writes &&
        (r.Err? <==> s.outcome.Halted?) && (r.Err? ==> r.failure == s.outcome.failure)
    {
      match e {
        case StartElement(name, attrs) =>
          StartElement(name, attrs);
          r := Ok(());
        case EndElement(name) =>
          r := EndElement(name);
        case Characters(content) =>
          Characters(content);
          r := Ok(());
      }
    }

    /** One callback of the run over `es`, in the terms of `Feed`. */
    method Turn(es: seq<SaxEvent>) returns (r: Result<(), Failure>)
      requires es != []
      modifies this
      ensures var all := Feed(old(Snapshot()), es);
        if r.Err? then all == Effect(Halted(r.failure, Snapshot()), []) && out == old(out)
        else
          var rest := Feed(Snapshot(), es[1..]);
          all.outcome == rest.outcome && old(out) + all.writes == out + rest.writes
    {
      ghost var st, first := Snapshot(), Step(Snapshot(), es[0]);
      FeedUnfold(st, es);
      r := Handle(es[0]);
      if r.Err? {
        StepContract(st, es[0]);
      } else {
        Regroup(old(out), first.writes, Feed(Snapshot(), es[1..]).writes);
      }
    }

    /** The parse: every callback in document order, up to the end or the
      first exception; returns 0, or the exit status the handler's exception
      leads to as the code is written (1 for a mismatch too, since the
      report's `%` raises before `sys.exit(4)`). */
    method Parse(es: seq<SaxEvent>) returns (status: int)
      modifies this
      ensures var e := Feed(old(Snapshot()), es);
        Snapshot() == e.outcome.st && out == old(out) + e.writes &&
        status == if e.outcome.Done? then 0 else ExitStatusAsWritten(e.outcome.failure)
    {
      var i := 0;
      while i < |es|
        invariant 0 <= i <= |es|
        invariant var e, rest := Feed(old(Snapshot()), es), Feed(Snapshot(), es[i..]);
          e.outcome == rest.outcome && old(out) + e.writes == out + rest.writes
      {
        var step := Turn(es[i..]);
        assert es[i..][1..] == es[i + 1..];
        if step.Err? {
          return ExitStatusAsWritten(step.failure);
        }
        i := i + 1;
      }
      status := 0;
    }
  }
}
