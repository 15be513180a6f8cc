# xmlParse in Dafny

xmlParse pretty-prints a well-formed XML file on a terminal. It comes in two
versions, and both are modelled here.

- **Go (`xmlParse.go`).** An `encoding/xml` decoder delivers tokens. A loop in
  `main` switches on each token:
  - a start tag is pushed on an element stack and printed on a new line, three
    spaces deeper per level;
  - an end tag is popped and printed after the content, indented back only
    when a child element started a line below it;
  - text is trimmed and shown when not blank;
  - comments are shown unless `-i`/`--ignore_comments` was given;
  - directives are always shown.
- **Python (`xmlParse.py`).** A SAX `XmlContentHandler` receives the same kind
  of callbacks. It keeps character data in a buffer and writes the buffer,
  trimmed, only at the next end tag.

The model works like this:

- Each write to the terminal is an `Event` (colour escapes dropped), defined in
  `Output`.
- Each program's reaction to one token or callback is a pure `Step` function.
  A run is `Feed`, which stops at the first failure and keeps what was already
  written.
- The programs' mutable state is modelled as classes: `GoRender.Renderer`
  (element stack, `nLastWritePos`, output) and `PyHandler.ContentHandler`
  (`elementStack`, `charBuffer`, `nLastWritePos`, output). There is a method
  for each stack helper and for `writeSpaces`; the Python class also has one
  for each callback and for `writeElementData` and `getCharacterData`. The Go
  class has one per case of the token switch in `main`. The one-line write
  helpers (`writeNewLine`, `writeStartName`, `writeEndName`, the attribute,
  data, comment and directive writers) are not methods of their own: each is
  a single append to the output. The loops that drive the classes (`Render`,
  `Parse`) are proved to leave exactly the state and output that `Feed`
  describes.
- Well-formed documents are trees (`Document.Node`). For both programs,
  lemmas show what a tree's tokens or callbacks write:
  - they never fail;
  - they bring the stack back to where it was;
  - they print the tree with one line per element start.
- `Agreement` proves that the two programs print the same events for
  documents whose text sits only in leaf elements, with only white space
  between elements, no directives and no namespace prefix in any name, with
  Go hiding comments.

Failures are values:

- A Go `pop` on a mismatch exits with status 4.
- A Go `pop` on an empty stack dereferences nil, a run-time panic that exits
  with status 2.
- A decoder error exits with status 3.
- A Python `list.pop` on an empty stack raises `IndexError`.
- A Python mismatch takes the error path of `popElementFromStack` (see
  Findings).

Go's `Decoder.Token` itself rejects an end tag that does not match the open
element, or that has no open element, with a syntax error, so on a real file
these reach the exit with status 3 (`xmlParse.go:141-143`). Status 4 and the
nil panic arise only from a token source that does not check nesting, which
is what the token sequences of `GoRender` allow.

Two places where the code differs from the behaviour one might expect. The
model follows the code in both.

- **End tag after a deeper line (`xmlParse.go:163-168`).** The code writes no
  line break of its own: it writes only the fillers, then `/name` followed by a
  line break. The break that puts an end tag on a fresh line is therefore the
  one written by the previous end tag's `/name\n`.
- **Mismatch in Python (`xmlParse.py:45`).** The element is taken off the stack
  before the names are compared, so a failed run leaves the stack already
  popped. The Go version compares first and leaves the stack untouched.

## Model

| member | source | states |
|---|---|---|
| Output.Indents | xmlParse.go:47-51 | `writeSpaces(pos, ...)` writes exactly `pos` fillers |
| Output.IndentsAreFillers | xmlParse.go:47-51 | every write of `writeSpaces` is a filler |
| Output.AttrEvents | xmlParse.go:158-160 | one attribute write per attribute of the start tag |
| Output.AttrEventsInOrder | xmlParse.go:158-160 | the i-th attribute write shows the i-th attribute's name and value, in document order |
| Output.StartWrites | xmlParse.go:153-161 | a start tag at depth `pos` makes `pos + 2 + |attrs|` writes |
| Output.StartWritesShape | xmlParse.go:155-160 | a start tag writes a line break, then `pos` fillers, then its name, then its attributes in order |
| Output.EndWrites | xmlParse.go:165-168 | an end tag writes `pos` fillers when `pos < nLastWritePos`, otherwise none, then its name |
| Output.EndWritesShape | xmlParse.go:163-168 | an end tag never writes a line break before its name: fillers only, then the end name last |
| Output.DataWrite | xmlParse.py:65-67 | data is written exactly when it is not empty, as one write of that data |
| Output.Trim | xmlParse.go:172 | trimming gives the empty string exactly when the text is all white space |
| Output.TrimShape | xmlParse.go:172 | the trimmed text is the part of the input between its leading and trailing white space, and it neither starts nor ends with white space |
| Output.TrimUntouched | xmlParse.go:172 | text with no white space at either end is left as it is |
| Output.TrimIdempotent | xmlParse.py:74 | stripping twice is stripping once |
| Output.TrimSpacePrefix | xmlParse.py:74 | white space put in front of text does not change its strip |
| Document.LastStartBound | xmlParse.go:161 | after reading an element at depth d, `nLastWritePos` is at least d; any other node leaves it unchanged |
| Document.LastStartAllBound | xmlParse.go:161 | siblings containing an element leave `nLastWritePos` at their depth or deeper; siblings without one leave it unchanged |
| Document.CloseIndented | xmlParse.go:165 | an element's end tag is indented back exactly when the element has a child element |
| Document.CloseWrites | xmlParse.go:163-168 | what the end tag of an element with these children writes, given the depth of the last start tag inside it |
| GoArgs.Classify | xmlParse.go:107-129 | usage status 1 exactly for a wrong argument count; 0 exactly for help; 2 exactly for `-i` without a file; 3 exactly for an unknown option; otherwise a parse of argument 1 with comments shown, or of argument 2 with comments hidden exactly when argument 1 is `-i` |
| GoRender.ExitCode | xmlParse.go:96 | the exit status of each failure: 4 for a name not on top, 2 for the nil dereference on an empty stack, 3 for a decoder error (line 143) |
| GoRender.Step | xmlParse.go:151-187 | one pass of the token switch: the new stack, `nLastWritePos` and writes for each kind of token, or the failure of `pop` |
| GoRender.Feed | xmlParse.go:138-191 | the loop: tokens handled in order until one fails or they run out |
| GoRender.Rendered | xmlParse.go:138-191 | the loop from an empty stack, followed by the reset and line break written after it when no token failed |
| GoRender.StepContract | xmlParse.go:150-186 | one turn fails exactly on a decoder error or an end tag whose name is not on top, and then writes and changes nothing; only a start tag moves `nLastWritePos`, to the depth before its push; a successful end tag removes exactly its name; blank text writes nothing; a comment writes only when comments are shown; a directive is always written |
| GoRender.Renderer.constructor | xmlParse.go:39-40 | a new renderer has an empty stack, `nLastWritePos` 0 and nothing written |
| GoRender.Renderer.Push | xmlParse.go:82-86 | `push` appends the name and returns the stack length before the push |
| GoRender.Renderer.Pop | xmlParse.go:89-98 | `pop` removes the top and returns the length after removal when the names match; a mismatch fails with exit 4 and an empty stack with the nil panic, both leaving the stack unchanged |
| GoRender.Renderer.WriteSpaces | xmlParse.go:47-51 | the loop writes `pos` fillers and changes nothing else |
| GoRender.Renderer.StartElement | xmlParse.go:153-161 | pushes the name, sets `nLastWritePos` to the depth before the push, and writes the start tag |
| GoRender.Renderer.EndElement | xmlParse.go:163-168 | fails exactly when the stack is empty or has another name on top, with nothing changed; otherwise pops the name and writes the end tag for the new depth |
| GoRender.Renderer.Consume | xmlParse.go:140-186 | one turn of the loop changes the state and writes exactly as `Step` says |
| GoRender.Renderer.Turn | xmlParse.go:138-188 | one turn followed by the rest of the loop gives what the whole loop over the tokens gives |
| GoRender.Renderer.Render | xmlParse.go:138-191 | the loop leaves the state `Feed` reaches and writes what `Feed` writes; it fails exactly when `Feed` fails; a complete run ends with the reset and a line break |
| GoRender.Execute | xmlParse.go:106-192 | `main` exits with the usage status for bad arguments, with 2 when the file does not open, otherwise with 0 or the status of the failure that ended the loop, having written what the loop wrote |
| GoRenderProperties.FeedAppend | xmlParse.go:138-188 | the loop over `a + b` is the loop over `a`, then over `b` from where `a` left off, unless `a` failed |
| GoRenderProperties.MismatchHalts | xmlParse.go:91-97 | an end tag with another name on top stops the run with nothing written and the stack untouched |
| GoRenderProperties.DropComments | xmlParse.go:177-181 | removing the comments from a list of writes leaves no comment in it |
| GoRenderProperties.DropCommentsAppend | xmlParse.go:177-181 | removing comments distributes over writes made one after the other |
| GoRenderProperties.NoCommentsKept | xmlParse.go:177-181 | writes without comments are unchanged by removing comments |
| GoRenderProperties.StepCommentsOnly | xmlParse.go:177-181 | for one token, hiding comments gives the same outcome, and the writes with comments shown, minus the comments |
| GoRenderProperties.FeedCommentsOnly | xmlParse.go:126-129 | for any token sequence, `-i` changes only whether comments are written |
| GoRenderProperties.HidingCommentsDropsOnlyComments | xmlParse.go:177-181 | a whole run with `-i` ends the same way and writes exactly the run without `-i` minus its comments |
| GoRenderProperties.NestedClose | xmlParse.go:163-175 | the tail of `<a><b>text</b></a>`: the text goes inline, `/b` follows on the same line, and `/a` needs no fillers at depth 0 |
| GoRenderProperties.NestedInner | xmlParse.go:153-175 | `<b>text</b></a>` inside `a`: `b` starts a new line one filler deep |
| GoRenderProperties.NestedScenario | xmlParse.go:138-191 | `<a><b>text</b></a>` prints line break, `a`; line break, one filler, `b`; the text; `/b`; `/a`; then the reset and a line break, and ends with an empty stack |
| GoTree.RendersNode | xmlParse.go:138-188 | the tokens of a well-formed node never fail, bring the stack back to where it was, and print the node pretty at the depth of the stack |
| GoTree.RendersAll | xmlParse.go:138-188 | the same for a sequence of sibling nodes |
| GoTree.RendersDocument | xmlParse.go:138-191 | a well-formed document renders without failing, ends with an empty stack, and prints its pretty form followed by the reset and a line break |
| GoTree.ElementStartsLine | xmlParse.go:155-157 | every element of a document starts its own line, one filler per level of depth |
| GoTree.EndIndentation | xmlParse.go:165-168 | an element's end tag gets `d` fillers when the element has a child element and none otherwise, ends with the end name, and never writes a line break first |
| PyHandler.Step | xmlParse.py:78-95 | one callback: the new stack, buffer and `nLastWritePos` and the writes of `startElement`, `endElement` and `characters`, or the failure of `popElementFromStack` |
| PyHandler.Feed | xmlParse.py:78-95 | callbacks handled in order until one raises or they run out |
| PyHandler.ExitStatusAsWritten | xmlParse.py:43-50 | the status a failure ends the run with as the code is written: 1 for `IndexError` on an empty stack, and 1 on a mismatch as well, because formatting the message raises before `sys.exit(4)` is reached |
| PyHandler.StepContract | xmlParse.py:78-95 | one callback fails exactly at an end tag on an empty stack or with another name on top, writing nothing; an end tag on a non-empty stack always takes the top off; a successful end tag empties the buffer; only a start tag moves `nLastWritePos`; character data only grows the buffer |
| PyHandler.Format | xmlParse.py:48-49 | `%` formatting succeeds exactly when the number of operands equals the number of `%s` conversions; with neither, it gives the format itself |
| PyHandler.MismatchConversions | xmlParse.py:48 | the mismatch report has two conversions |
| PyHandler.MismatchReportRaises | xmlParse.py:48-50 | the report as written, with one operand, cannot be formatted, so a mismatch ends with status 1 |
| PyHandler.MismatchReportFormats | xmlParse.py:48-50 | with both operands the report formats and a mismatch ends with status 4 |
| PyHandler.ContentHandler.constructor | xmlParse.py:31-36 | a new handler has an empty stack, an empty buffer, `nLastWritePos` 0 and nothing written |
| PyHandler.ContentHandler.PushElementToStack | xmlParse.py:38-41 | appends the name and returns the stack length before the append |
| PyHandler.ContentHandler.PopElementFromStack | xmlParse.py:43-50 | pops the top in every case; returns the new length when it was the name, fails with the mismatch otherwise; an empty stack fails with `IndexError` |
| PyHandler.ContentHandler.WriteSpaces | xmlParse.py:52-54 | writes `pos` fillers and changes nothing else |
| PyHandler.ContentHandler.WriteElementData | xmlParse.py:65-67 | writes the data only when it is not empty |
| PyHandler.ContentHandler.GetCharacterData | xmlParse.py:73-76 | returns the buffer stripped and empties the buffer |
| PyHandler.ContentHandler.Characters | xmlParse.py:94-95 | appends the content to the buffer and changes nothing else |
| PyHandler.ContentHandler.StartElement | xmlParse.py:78-84 | pushes the name, sets `nLastWritePos` to the depth before the push, leaves the buffer alone, and writes the start tag |
| PyHandler.ContentHandler.EndElement | xmlParse.py:86-92 | changes the state and writes exactly as `Step` says for the end tag: the stripped buffer, then the fillers when needed, then the end name |
| PyHandler.ContentHandler.Handle | xmlParse.py:78-95 | one callback changes the state and writes exactly as `Step` says |
| PyHandler.ContentHandler.Turn | xmlParse.py:78-95 | one callback followed by the rest gives what the whole run over the callbacks gives |
| PyHandler.ContentHandler.Parse | xmlParse.py:101-110 | the parse leaves the state `Feed` reaches and writes what `Feed` writes; it exits with 0, or with the status the code as written gives the exception that ended it: 1 for a pop from an empty stack, and 1 for a mismatch too, because the report's `%` raises |
| PyHandlerProperties.FeedAppend | xmlParse.py:78-95 | the callbacks `a + b` are the callbacks `a`, then `b` from where `a` left off, unless `a` failed |
| PyHandlerProperties.FeedOne | xmlParse.py:78-95 | a single callback is a single step |
| PyHandlerProperties.MismatchPopsAnyway | xmlParse.py:45-50 | an end tag with another name on top stops the run with nothing written, one element shorter on the stack |
| PyHandlerProperties.CharacterEvents | xmlParse.py:94-95 | one character callback per chunk, in order |
| PyHandlerProperties.CharactersOnlyBuffer | xmlParse.py:94-95 | however character data is cut into chunks, it only grows the buffer by the chunks in order, writing nothing |
| PyHandlerProperties.CharactersThen | xmlParse.py:94-95 | character data followed by more callbacks only joins the buffer, then the rest runs |
| PyHandlerProperties.CloseLast | xmlParse.py:86-92 | a matching end tag pops its name, writes the stripped buffer, then the fillers when needed, then the end name, and empties the buffer |
| PyHandlerProperties.StartThen | xmlParse.py:78-84 | a start tag followed by more callbacks writes the start tag, then the rest runs one level deeper with the buffer untouched |
| PyHandlerProperties.BufferedOuter | xmlParse.py:86-95 | `z</a>` with nothing held back: `z` stripped, then `/a` with no fillers |
| PyHandlerProperties.BufferedClose | xmlParse.py:86-95 | the tail of `<a>x<b>y</b>z</a>`: `x` and `y` are written together, stripped, at `/b`, and `z` at `/a` |
| PyHandlerProperties.BufferedInner | xmlParse.py:78-95 | `<b>y</b>z</a>` inside `a` with `x` held back: `b` starts a new line one filler deep and `x` is not written before it |
| PyHandlerProperties.BufferedAfterStart | xmlParse.py:78-95 | `x<b>y</b>z</a>` just inside `a`: `x` writes nothing until `/b` |
| PyHandlerProperties.BufferedScenario | xmlParse.py:78-95 | `<a>x<b>y</b>z</a>` prints `a`, then `b` on a new line, then `strip(x + y)`, `/b`, `strip(z)`, `/a`, and ends with an empty stack and buffer |
| PyTree.HandlesNode | xmlParse.py:78-95 | the callbacks of a well-formed node never fail, bring the stack back to where it was, and print the node with its text held back to the next end tag |
| PyTree.HandlesAll | xmlParse.py:78-95 | the same for a sequence of sibling nodes |
| PyTree.HandlesDocument | xmlParse.py:101-105 | a well-formed document parses without an exception and leaves the stack empty |
| Agreement.AgreeNode | xmlParse.py:86-92 | on a node with text only in leaf elements, and only white space held back, the Python handler writes what the Go renderer writes with comments hidden, and holds back only white space afterwards |
| Agreement.AgreeAll | xmlParse.py:86-92 | the same for a sequence of sibling nodes |
| Agreement.SameOutput | xmlParse.py:78-95 | for such a document (text only in leaf elements, no directives, no namespace prefixes) both programs succeed, and the Python writes are the Go writes (comments hidden) without the final reset and line break |

## Left out

- The lexers (`encoding/xml`, `xml.sax`) are not modelled. They are replaced
  by the token or callback sequences they deliver. Well-formed input is the
  tree type `Document.Node`. Malformed input is any token sequence, or a
  `DecodeError` token in Go.
- `SAXParseException` (status 2) and `OSError` (status 3) in Python `main`
  are left out, because they come from the parser and from opening the file.
- Colour escapes, the filler text `"   "` and the exact formats are left out.
  Each write is an `Event` constructor; the comments on `Output.Event` give
  the format each constructor stands for.
- Go's `ProcInst` tokens (such as `<?xml ...?>`) fall through the switch. The
  model keeps them as no-op tokens.
- Python's handler does not override the callbacks for comments or
  processing instructions (the inherited `processingInstruction` does
  nothing), and SAX has no callback for directives, so these produce no event.
- Namespace prefixes are left out. The Go renderer prints local names
  (`xmlParse.go:154-168`). `xml.sax.parse` runs with namespace processing off,
  so the Python handler receives qualified names such as `x:a`, and
  attribute names such as `xmlns:x`. Both models carry a single name string.
  `Agreement.SameOutput` therefore speaks only of documents without prefixes,
  where the two names coincide.
- Python attribute order comes from `attributes.getNames()`, taken as
  document order.
- File I/O is left out. Opening the file is a set of names that open.
- The messages printed before an exit (usage text, the Go mismatch report,
  decoder and open errors) are not part of the writes. Each failure is
  carried as a value, with its status.
- Python `__main__` argument handling (`xmlParse.py:115-119`) is not
  modelled, because it sits outside the handler.
- The final `print('')` at `xmlParse.py:122` is not part of `Parse`.
  `Agreement.SameOutput` therefore compares writes without the closing
  writes of either program.
- White space means the six ASCII white-space characters. Both
  `strings.TrimSpace` and `str.strip` also remove U+0085, U+00A0 and the
  Unicode space separators. `str.strip` also removes the ASCII separators
  U+001C to U+001F, which `strings.TrimSpace` keeps; XML 1.0 does not allow
  them in a document. None of these is modelled.
- In Python, `elementStack` is a class attribute, shared by all handler
  instances. The model gives each handler its own stack, because the program
  creates only one handler.
- Process exit is a returned status, not the end of the program.

## Findings

| source | as written | input that shows it | evidently intended | confidence | as-written member | corrected member |
|---|---|---|---|---|---|---|
| xmlParse.py:48-49 | `'%s\nelement %s ...' % WHITE, name` gives `%` one operand for two conversions, so `%` raises `TypeError` before anything is printed and `sys.exit(4)` is never reached; the process ends with status 1 | `endElement('b')` on a handler whose stack holds `['a']` (expat rejects `<a></b>` itself, so the path is reached only by a call like this or a parser that reports the mismatch) | the report printed with both the colour reset and the name, then exit status 4 | not executed | PyHandler.MismatchReportRaises | PyHandler.MismatchReportFormats |
