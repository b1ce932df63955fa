/**
 * Wire events of fastapi_app.py. Every event is written as one server-sent
 * events frame, `data: <json>` followed by a blank line (section 9.2 of the
 * WHATWG HTML Living Standard, "Server-sent events"). The JSON serialiser
 * (`json.dumps`) is not modelled: the controllers receive it as a function
 * parameter, so nothing here depends on how it renders a value.
 */
module Sse {
  import opened Wrappers

  /** The JSON values the controllers serialise. */
  datatype Json = Null | Str(text: string) | Object(members: map<string, Json>)

  /** One graph event in "updates" mode: node name to the fields that node yielded. */
  type Event = map<string, map<string, Option<string>>>

  /** A nullable text as JSON: `None` becomes null. */
  function OptionJson(v: Option<string>): Json
  {
    match v
    case None => Null
    case Some(t) => Str(t)
  }

  /** The JSON object `json.dumps` receives for an event (`dict(event)`). */
  function EventJson(ev: Event): Json
  {
    Object(map node | node in ev :: Object(map key | key in ev[node] :: OptionJson(ev[node][key])))
  }

  /** The first payload of the outline stream, `{"session_id": <id>}`. */
  function SessionPreamble(id: string): Json
  {
    Object(map["session_id" := Str(id)])
  }

  /** `f"data: {payload}\n\n"`. */
  function Frame(payload: string): string
  {
    "data: " + payload + "\n\n"
  }

  // ---------------------------------------------------------------------------
  // The receiving side: an event-stream reader
  // ---------------------------------------------------------------------------

  /** No line break: a payload that fits on one `data:` line. */
  predicate NoBreak(s: string)
  {
    forall i :: 0 <= i < |s| ==> s[i] != '\n' && s[i] != '\r'
  }

  /** What a reader of an event stream keeps between characters, following the
      parsing rules of section 9.2.6 of the WHATWG HTML Living Standard for
      the `data` field: the line read so far, the data buffer, whether the last
      character was a carriage return, and the data of every event dispatched. */
  datatype Reader = Reader(line: string, data: string, afterCR: bool, dispatched: seq<string>)

  /** A reader between events: no partial line and an empty data buffer. */
  predicate Idle(r: Reader)
  {
    r.line == "" && r.data == "" && !r.afterCR
  }

  /** Field name and value of a line: the name runs up to the first colon and
      the value follows it, less one leading space; without a colon the whole
      line is the name and the value is empty. */
  function Field(line: string): (string, string)
    decreases |line|
  {
    if line == [] then ("", "")
    else if line[0] == ':' then ("", if |line| > 1 && line[1] == ' ' then line[2..] else line[1..])
    else ([line[0]] + Field(line[1..]).0, Field(line[1..]).1)
  }

  /** Processing one complete line: a blank line dispatches the buffered data
      (less its final line feed) unless the buffer is empty; a line starting
      with a colon is a comment; a `data` field appends its value and a line
      feed to the buffer; other fields do not touch the data. */
  function ProcessLine(r: Reader, line: string): Reader
  {
    if line == [] then
      (if r.data == [] then r else r.(data := "", dispatched := r.dispatched + [r.data[..|r.data| - 1]]))
    else if line[0] == ':' then r
    else if Field(line).0 == "data" then r.(data := r.data + Field(line).1 + "\n")
    else r
  }

  /** One character: CR, LF and CRLF end a line; anything else extends it. */
  function Feed(r: Reader, c: char): Reader
  {
    if c == '\n' && r.afterCR then r.(afterCR := false)
    else if c == '\n' || c == '\r' then ProcessLine(r, r.line).(line := "", afterCR := c == '\r')
    else r.(line := r.line + [c], afterCR := false)
  }

  /** The reader after the given text. */
  function ReadStream(r: Reader, s: string): Reader
    decreases |s|
  {
    if s == [] then r else ReadStream(Feed(r, s[0]), s[1..])
  }

  /** Reading two texts one after the other is reading their concatenation. */
  lemma {:induction false} ReadStreamAppend(r: Reader, s: string, t: string)
    ensures ReadStream(r, s + t) == ReadStream(ReadStream(r, s), t)
    decreases |s|
  {
    if s == [] {
      assert s + t == t;
    } else {
      assert (s + t)[0] == s[0] && (s + t)[1..] == s[1..] + t;
      ReadStreamAppend(Feed(r, s[0]), s[1..], t);
    }
  }

  /** Text without a line break only extends the current line. */
  lemma {:induction false} ReadText(r: Reader, s: string)
    requires NoBreak(s) && !r.afterCR
    ensures ReadStream(r, s) == r.(line := r.line + s)
    decreases |s|
  {
    if s == [] {
      assert r.line + s == r.line;
    } else {
      ReadText(Feed(r, s[0]), s[1..]);
      assert r.line + [s[0]] + s[1..] == r.line + s;
    }
  }

  /** A field name without a colon is read up to the colon that follows it. */
  lemma {:induction false} FieldAfterName(name: string, rest: string)
    requires forall i :: 0 <= i < |name| ==> name[i] != ':'
    ensures Field(name + rest) == (name + Field(rest).0, Field(rest).1)
    decreases |name|
  {
    if name == [] {
      assert name + rest == rest && name + Field(rest).0 == Field(rest).0;
    } else {
      assert (name + rest)[0] == name[0] && (name + rest)[1..] == name[1..] + rest;
      FieldAfterName(name[1..], rest);
      assert [name[0]] + (name[1..] + Field(rest).0) == name + Field(rest).0;
    }
  }

  /** The line `data: p` is the `data` field with value p. */
  lemma DataField(payload: string)
    ensures Field("data: " + payload) == ("data", payload)
  {
    assert "data: " + payload == "data" + (": " + payload);
    FieldAfterName("data", ": " + payload);
    var rest := ": " + payload;
    assert rest[0] == ':' && |rest| > 1 && rest[1] == ' ' && rest[2..] == payload;
    assert Field(rest) == ("", payload);
    assert "data" + "" == "data";
  }

  /** Reading one character is feeding it. */
  lemma ReadOne(r: Reader, c: char)
    ensures ReadStream(r, [c]) == Feed(r, c)
  {
    assert [c][1..] == [];
  }

  /** A reader between events that receives the line `data: p` buffers p and a line feed. */
  lemma DataLine(r: Reader, payload: string)
    requires Idle(r) && NoBreak(payload)
    ensures ReadStream(r, "data: " + payload + "\n") == r.(data := payload + "\n")
  {
    var line := "data: " + payload;
    assert NoBreak(line);
    ReadStreamAppend(r, line, "\n");
    ReadText(r, line);
    assert r.line + line == line;
    DataField(payload);
    ReadOne(r.(line := line), '\n');
  }

  /** A blank line after one buffered `data` line dispatches that line's value and empties the buffer. */
  lemma BlankLineDispatches(r: Reader, payload: string)
    requires Idle(r)
    ensures ReadStream(r.(data := payload + "\n"), "\n") == r.(dispatched := r.dispatched + [payload])
  {
    ReadOne(r.(data := payload + "\n"), '\n');
    assert (payload + "\n")[..|payload + "\n"| - 1] == payload;
  }

  /** A reader between events that receives one frame dispatches exactly its
      payload and is between events again. */
  lemma FrameDispatches(r: Reader, payload: string)
    requires Idle(r) && NoBreak(payload)
    ensures ReadStream(r, Frame(payload)) == r.(dispatched := r.dispatched + [payload])
  {
    assert Frame(payload) == ("data: " + payload + "\n") + "\n";
    ReadStreamAppend(r, "data: " + payload + "\n", "\n");
    DataLine(r, payload);
    BlankLineDispatches(r, payload);
  }

  /** The extra "\n" frame is a blank line with nothing buffered: it dispatches nothing. */
  lemma SeparatorIsInert(r: Reader)
    requires Idle(r)
    ensures ReadStream(r, "\n") == r
  {
    ReadOne(r, '\n');
  }
}
