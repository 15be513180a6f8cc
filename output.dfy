/** The writes both renderers make, without their colour escapes, and the
    text helpers both of them rely on. */
module Output {

  /** One attribute of a start tag, as the lexer delivers it: the local name
      in Go, the name as written (prefix included) in Python. */
  datatype Attr = Attr(name: string, value: string)

  /** One write to standard output. Each constructor stands for one format of
      the source; only EndName and Directive end the line they are written on. */
  datatype Event =
    | Newline                               // "\n"
    | Indent                                // one filler of three spaces
    | StartName(name: string)               // "name "
    | AttrPair(name: string, value: string) // "(name = value) "
    | Data(text: string)                    // "text "
    | EndName(name: string)                 // "/name\n"
    | Comment(text: string)                 // the raw comment
    | Directive(text: string)               // "text\n"
    | Reset                                 // back to normal printing

  /** Some input handled up to its end, or the handling ended early by
      `failure`; `st` is the state it was left in. */
  datatype Outcome<S, F> = Done(st: S) | Halted(failure: F, st: S)

  /** What handling some input did: how it ended and what it wrote. */
  datatype Effect<S, F> = Effect(outcome: Outcome<S, F>, writes: seq<Event>)

  /** What an operation returns: a value, or the failure that ends the run. */
  datatype Result<T, F> = Ok(value: T) | Err(failure: F)

  /** Writes made one after the other may be grouped either way. */
  lemma Regroup(a: seq<Event>, b: seq<Event>, c: seq<Event>)
    ensures a + (b + c) == (a + b) + c
  {
  }

  /** The fillers `writeSpaces(pos, "   ")` makes: one per level of depth. */
  function Indents(n: nat): (r: seq<Event>)
    ensures |r| == n
  {
    if n == 0 then [] else Indents(n - 1) + [Indent]
  }

  /** Every write of `Indents(n)` is a filler. */
  lemma {:induction false} IndentsAreFillers(n: nat)
    ensures forall i :: 0 <= i < n ==> Indents(n)[i] == Indent
  {
    if n > 0 {
      IndentsAreFillers(n - 1);
      assert forall i :: 0 <= i < n - 1 ==> Indents(n)[i] == Indents(n - 1)[i];
    }
  }

  /** One "(name = value)" write per attribute, in document order. */
  function AttrEvents(attrs: seq<Attr>): (r: seq<Event>)
    ensures |r| == |attrs|
  {
    if attrs == [] then []
    else AttrEvents(attrs[..|attrs| - 1]) + [AttrPair(attrs[|attrs| - 1].name, attrs[|attrs| - 1].value)]
  }

  /** The `i`-th attribute write shows the `i`-th attribute. */
  lemma {:induction false} AttrEventsInOrder(attrs: seq<Attr>)
    ensures forall i :: 0 <= i < |attrs| ==> AttrEvents(attrs)[i] == AttrPair(attrs[i].name, attrs[i].value)
  {
    if attrs != [] {
      var init := attrs[..|attrs| - 1];
      AttrEventsInOrder(init);
      assert forall i :: 0 <= i < |init| ==> AttrEvents(attrs)[i] == AttrEvents(init)[i] && attrs[i] == init[i];
    }
  }

  /** What a start tag at depth `pos` (the stack length before the push) writes:
      a line break, `pos` fillers, the name, then the attributes. */
  function StartWrites(pos: nat, name: string, attrs: seq<Attr>): (r: seq<Event>)
    ensures |r| == pos + 2 + |attrs|
  {
    [Newline] + Indents(pos) + [StartName(name)] + AttrEvents(attrs)
  }

  /** A start tag opens a new line, and its name follows the fillers for its
      depth; no write of it closes a line. */
  lemma StartWritesShape(pos: nat, name: string, attrs: seq<Attr>)
    ensures var r := StartWrites(pos, name, attrs);
      r[0] == Newline && r[pos + 1] == StartName(name) &&
      (forall i :: 1 <= i <= pos ==> r[i] == Indent) &&
      (forall i :: pos + 2 <= i < |r| ==> r[i] == AttrPair(attrs[i - pos - 2].name, attrs[i - pos - 2].value))
  {
    IndentsAreFillers(pos);
    AttrEventsInOrder(attrs);
  }

  /** What an end tag writes once its element is popped: fillers only when the
      depth after the pop is below the depth of the last start tag, then the
      end name. */
  function EndWrites(pos: nat, lastWritePos: nat, name: string): (r: seq<Event>)
    ensures |r| == (if pos < lastWritePos then pos + 1 else 1)
  {
    (if pos < lastWritePos then Indents(pos) else []) + [EndName(name)]
  }

  /** An end tag never starts a new line: it writes fillers only, then its
      name. */
  lemma EndWritesShape(pos: nat, lastWritePos: nat, name: string)
    ensures var r := EndWrites(pos, lastWritePos, name);
      Newline !in r && r[|r| - 1] == EndName(name) &&
      forall i :: 0 <= i < |r| - 1 ==> r[i] == Indent
  {
    IndentsAreFillers(pos);
  }

  /** A data write, made only when the (already trimmed) data is not empty. */
  function DataWrite(data: string): (r: seq<Event>)
    ensures r == [] <==> data == ""
    ensures |r| <= 1 && (r != [] ==> r[0] == Data(data))
  {
    if data == "" then [] else [Data(data)]
  }

  /** The six ASCII white-space characters; both `strings.TrimSpace` and
      `str.strip` remove them. */
  predicate IsSpace(c: char) {
    c == ' ' || c == '\t' || c == '\n' || c == '\r' || c == '\U{B}' || c == '\U{C}'
  }

  predicate AllSpace(s: string) {
    forall i :: 0 <= i < |s| ==> IsSpace(s[i])
  }

  /** The first index at or after `i` that does not hold white space, or
      `|s|` when there is none. */
  function SkipSpace(s: string, i: nat): (n: nat)
    requires i <= |s|
    ensures i <= n <= |s|
    ensures forall j :: i <= j < n ==> IsSpace(s[j])
    ensures n == |s| || !IsSpace(s[n])
    decreases |s| - i
  {
    if i < |s| && IsSpace(s[i]) then SkipSpace(s, i + 1) else i
  }

  /** Going down from `j`, the first end at or above `lo` that follows a
      character other than white space, or `lo` when there is none. */
  function SkipSpaceBack(s: string, lo: nat, j: nat): (n: nat)
    requires lo <= j <= |s|
    ensures lo <= n <= j
    ensures forall k :: n <= k < j ==> IsSpace(s[k])
    ensures n == lo || !IsSpace(s[n - 1])
  {
    if j > lo && IsSpace(s[j - 1]) then SkipSpaceBack(s, lo, j - 1) else j
  }

  /** `s` with leading and trailing white space removed; empty exactly when
      `s` is all white space. */
  function Trim(s: string): (r: string)
    ensures r == [] <==> AllSpace(s)
  {
    var k := SkipSpace(s, 0);
    var m := SkipSpaceBack(s, k, |s|);
    assert m > k ==> !IsSpace(s[k]);
    s[k..m]
  }

  /** What a trim keeps: the part of `s` between its leading and its trailing
      white space, which neither starts nor ends with white space. */
  lemma TrimShape(s: string)
    ensures var r, k := Trim(s), SkipSpace(s, 0);
      (r == [] || (!IsSpace(r[0]) && !IsSpace(r[|r| - 1]))) &&
      k + |r| <= |s| && r == s[k..k + |r|] &&
      (forall i :: 0 <= i < k ==> IsSpace(s[i])) &&
      (forall i :: k + |r| <= i < |s| ==> IsSpace(s[i]))
  {
    var k := SkipSpace(s, 0);
    var m := SkipSpaceBack(s, k, |s|);
    assert Trim(s) == s[k..m];
  }

  /** Text that is not empty and neither starts nor ends with white space. */
  predicate Trimmed(s: string) {
    s != [] && !IsSpace(s[0]) && !IsSpace(s[|s| - 1])
  }

  /** Text that neither starts nor ends with white space is left as it is. */
  lemma TrimUntouched(s: string)
    requires Trimmed(s)
    ensures Trim(s) == s
  {
    assert SkipSpace(s, 0) == 0;
    assert SkipSpaceBack(s, 0, |s|) == |s|;
  }

  /** Skipping white space in `ws + t` from inside `t` is skipping it in `t`. */
  lemma {:induction false} SkipSpaceShift(ws: string, t: string, j: nat)
    requires j <= |t|
    ensures SkipSpace(ws + t, |ws| + j) == |ws| + SkipSpace(t, j)
    decreases |t| - j
  {
    if j < |t| {
      assert (ws + t)[|ws| + j] == t[j];
      SkipSpaceShift(ws, t, j + 1);
    }
  }

  /** Skipping white space in `ws + t` from a white-space prefix goes past
      the whole prefix. */
  lemma {:induction false} SkipSpacePrefix(ws: string, t: string, i: nat)
    requires AllSpace(ws) && i <= |ws|
    ensures SkipSpace(ws + t, i) == |ws| + SkipSpace(t, 0)
    decreases |ws| - i
  {
    if i < |ws| {
      assert (ws + t)[i] == ws[i];
      SkipSpacePrefix(ws, t, i + 1);
    } else {
      SkipSpaceShift(ws, t, 0);
    }
  }

  /** Skipping white space backwards in `ws + t` within `t` is skipping it
      in `t`. */
  lemma {:induction false} SkipSpaceBackShift(ws: string, t: string, lo: nat, j: nat)
    requires lo <= j <= |t|
    ensures SkipSpaceBack(ws + t, |ws| + lo, |ws| + j) == |ws| + SkipSpaceBack(t, lo, j)
    decreases j
  {
    if j > lo {
      assert (ws + t)[|ws| + j - 1] == t[j - 1];
      SkipSpaceBackShift(ws, t, lo, j - 1);
    }
  }

  /** A trim is the slice between the two skips. */
  lemma TrimSlice(s: string)
    ensures var k := SkipSpace(s, 0);
      Trim(s) == s[k..SkipSpaceBack(s, k, |s|)]
  {
  }

  /** A slice of `t` is the same slice of `ws + t`, moved by `|ws|`. */
  lemma SliceShift(ws: string, t: string, i: nat, j: nat)
    requires i <= j <= |t|
    ensures (ws + t)[|ws| + i..|ws| + j] == t[i..j]
  {
    assert forall n :: 0 <= n < j - i ==> (ws + t)[|ws| + i..|ws| + j][n] == t[i..j][n];
  }

  /** White space put in front of text is trimmed away with the text's own. */
  lemma TrimSpacePrefix(ws: string, t: string)
    requires AllSpace(ws)
    ensures Trim(ws + t) == Trim(t)
  {
    SkipSpacePrefix(ws, t, 0);
    var k := SkipSpace(t, 0);
    SkipSpaceBackShift(ws, t, k, |t|);
    var m := SkipSpaceBack(t, k, |t|);
    TrimSlice(ws + t);
    TrimSlice(t);
    SliceShift(ws, t, k, m);
  }

  /** Trimming twice is trimming once. */
  lemma TrimIdempotent(s: string)
    ensures Trim(Trim(s)) == Trim(s)
  {
    TrimShape(s);
    if Trim(s) != [] {
      TrimUntouched(Trim(s));
    }
  }
}
