# Course generator streaming pipeline: a Dafny model

The course generator produces a course in three stages: an outline from a
title and description, lessons from the outline, and refined lessons from
the lessons plus user feedback. Each stage is a one-node graph
(`langgraph_chains.py`). The node streams text chunks from a language model.
It appends each chunk to an accumulator that starts at `""` and yields a
state after every chunk. That state holds the node's fixed inputs, copied
unchanged, and the accumulator so far.

Three HTTP handlers (`fastapi_app.py`) drive the graphs. They forward every
graph event to the client as a server-sent events frame `data: <json>\n\n`
(section 9.2 of the WHATWG HTML Living Standard). After each event they
overwrite one field of a record in the process-wide table `SESSIONS`.

The model has seven modules:

- `Wrappers` (wrappers.dfy): `Option`, for Python's `Optional[str]`.
- `Text` (text.dfy): `Concat`, texts joined in order. It is what a node's
  `partial += chunk.content` builds from `""`, and what a connection carries
  when the frames are written one after another.
- `Chains` (chains.dfy): the three state records, and the three nodes as
  methods with loops. Each method is proved equal to a run function (`OutlineRun`,
  `LessonsRun`, `RefineRun`). The lemmas prove four things about the runs.
  There is one emission per chunk. Emission k holds the first k + 1 chunks
  joined (`Concat`). Emissions only grow by extension. The inputs are carried
  through unchanged.
- `Words` (words.dfy): `len(description.split())`, using the exact whitespace
  set of Python's `str.isspace()`. Every piece the split returns is a word.
  The lemmas show three things: there are no pieces exactly when the text is
  all whitespace; a whitespace character splits the text into the pieces of
  its two sides, so extra whitespace anywhere adds no words; and splitting
  words joined by spaces gives the words back.
- `Sse` (sse.dfy): the JSON values that are serialised, the event shape
  node → field → nullable text, and the frame format. It also holds a client's event-stream reader, written after the
  parsing rules of section 9.2.6 of the WHATWG HTML Living Standard. The
  lemmas show that one frame makes the reader dispatch exactly its payload,
  and that the extra `"\n"` frame dispatches nothing.
- `App` (app.dfy): `SessionTable`, a class whose `sessions` map field is
  `SESSIONS`. The class has the three handlers and the shared per-event loop
  `Replay`. Each handler checks its guards first and returns `Rejected`
  without touching the table; otherwise it streams and writes back per
  event. Two spec functions say what the loop leaves behind: `Frames` gives
  the frames it sends and `Stored` gives the value the field holds after it.
  A `KeyError`, meaning an event without the field being read, ends the loop
  after that event's frames. Lemmas tie the loop to the reader: a client
  reading a handler's response receives every framed event's JSON text, in
  order, and nothing else; on the outline stream the session id comes first.
- `Pipeline` (pipeline.dfy): connects the stage runs to the handlers. It
  assumes that a graph streamed in "updates" mode sends one event
  `{node: all fields of the yielded state}` per yielded state. Under that
  assumption it proves what each completed stream leaves in the table. It
  also shows the three requests run in order on a fresh table.

Parameters of the model:
- the language model's output is a `seq<string>` of chunk contents;
- each compiled graph is a function from its input state to a `GraphStream`
  (events, plus a flag for a stream that ends in a generation error);
- `json.dumps` is a function `Json -> string` that the model does not
  interpret;
- `uuid.uuid4()` is an id argument, required to be absent from the table.

Behaviour of the code worth noting:
- The lessons and refinement guards reject an empty string as well as
  `None`, because the code tests `if not outline` / `if not lessons`.
- The stored field is overwritten on every event, not once at the end.
- Chunks may be empty, so successive emissions are prefixes of each other
  but not necessarily strict prefixes.
- The refinement handler stores the event's `lessons` field, which is the
  unchanged input, not the refined text. See Findings.

## Model

| member | source | states |
|---|---|---|
| `Text.Concat` | langgraph_chains.py:60-64 | definition of the accumulator: `""` extended by each chunk's content in turn; its properties are the `Text` and `Chains` lemmas below |
| `Text.ConcatPrefix` | langgraph_chains.py:60-64 | the accumulator after i chunks is a prefix of the accumulator after any j >= i chunks |
| `Text.ConcatStep` | langgraph_chains.py:64 | helper, one step of the accumulator (`partial += chunk.content`): the text after k + 1 chunks is the text after k chunks followed by chunk k |
| `Text.ConcatAppend` | fastapi_app.py:70-74 | the frames of a stream, written one after another, read as the frames of a first part followed by those of the rest |
| `Chains.GenerateOutline` | langgraph_chains.py:51-71 | one emission per chunk (none for an empty stream); emission k has the input's title and description and `outline` = the first k + 1 chunks joined from `""` |
| `Chains.GenerateLessons` | langgraph_chains.py:99-113 | one emission per chunk; each carries the input outline unchanged, and `lessons` = the first k + 1 chunks joined |
| `Chains.RefineLessons` | langgraph_chains.py:137-152 | one emission per chunk; `lessons` and `feedback` are copied from the input, and only `refined_lessons` accumulates the chunks |
| `Chains.OutlinePrefixIncreasing` | langgraph_chains.py:60-71 | every emitted outline is a prefix of every later one in the same run |
| `Chains.LessonsPrefixIncreasing` | langgraph_chains.py:105-113 | every emitted lessons text is a prefix of every later one in the same run |
| `Chains.RefinePrefixIncreasing` | langgraph_chains.py:143-152 | refined text grows by extension while the emitted `lessons` field equals the input's throughout the run |
| `Chains.RunsEndComplete` | langgraph_chains.py:63-71 | the last emission of a non-empty run holds the text of all the chunks |
| `Chains.RunsStartFresh` | langgraph_chains.py:60-71 | a run depends only on the node's fixed inputs and the chunks: an output already present in the input state is ignored, and two runs over the same chunks emit the same states |
| `Words.WordLength` | fastapi_app.py:47 | the word at the start of a text is the maximal run of non-whitespace characters |
| `Words.Split` | fastapi_app.py:47 | `description.split()`: every piece it returns is non-empty and contains no whitespace |
| `Words.WordCount` | fastapi_app.py:47 | definition: `len(description.split())`, the number of pieces of `Split` |
| `Words.SplitEmpty` | fastapi_app.py:47 | a text splits into no pieces exactly when every character is whitespace (the empty text included) |
| `Words.SplitAroundSpace` | fastapi_app.py:47 | for any texts a, b and whitespace character c, `(a + c + b).split()` is `a.split()` followed by `b.split()`: runs of whitespace between, before and after words produce no pieces |
| `Words.WordCountAroundSpace` | fastapi_app.py:47-48 | the counted words of a + c + b are those of a plus those of b, so the 200-word guard sees whitespace only as a separator |
| `Words.SplitJoin` | fastapi_app.py:47 | splitting words joined by single spaces gives the same words back |
| `Words.WordCountOfJoin` | fastapi_app.py:47-48 | the counted words of `" ".join(ws)` are exactly `len(ws)` |
| `Sse.SessionPreamble` | fastapi_app.py:61 | definition: the JSON object `{"session_id": id}` |
| `Sse.Frame` | fastapi_app.py:62 | definition of `f"data: {payload}\n\n"`, the frame of lines 62, 73, 101 and 126; read back by `Sse.FrameDispatches` |
| `Sse.ReadStreamAppend` | fastapi_app.py:70-74 | a client reading two texts in turn is in the state it reaches reading them joined |
| `Sse.FrameDispatches` | fastapi_app.py:62 | a client between events that receives `data: p\n\n`, with p free of line breaks, dispatches p and nothing else, and is between events again |
| `Sse.SeparatorIsInert` | fastapi_app.py:63 | the extra `"\n"` frame leaves a client between events unchanged: no event and no buffered data |
| `App.Missing` | fastapi_app.py:92 | definition of Python's `not v` on an optional text (lines 92 and 117): None or `""` |
| `App.Decimal` | fastapi_app.py:49 | the f-string rendering of the word count: at least one digit, only digits, and a leading `0` only for zero |
| `App.DecimalRoundTrip` | fastapi_app.py:49 | the rendered count reads back as the count |
| `App.Detail` | fastapi_app.py:49 | definition of the `detail` texts of the refusals at lines 49, 87, 93 and 118, the word count rendered by `Decimal` |
| `App.Read` | fastapi_app.py:76 | definition of the lookup `event_dict[node][key]` (lines 76, 102 and 128): None where it raises KeyError |
| `App.EventFrames` | fastapi_app.py:73-74 | definition of one event's frames: its `data:` frame, and on the outline stream the extra `"\n"` |
| `App.Written` | fastapi_app.py:66-76 | the loop writes back exactly the leading events that carry the field; the event after them, if any, lacks it |
| `App.WrittenAll` | fastapi_app.py:70-76 | the loop reaches the end of the stream exactly when every event carries the field |
| `App.FramesOfStep` | fastapi_app.py:70-74 | each event's frames follow those of the events before it |
| `App.FramesOfAt` | fastapi_app.py:70-74 | event k is sent as frame k; on the outline stream it is sent as frame 2k, followed by a `"\n"` frame at 2k + 1 |
| `App.StoredIsLast` | fastapi_app.py:66-76 | when every event carries the field, all frames are sent and the stored value is the last event's; with no events it is the initial value |
| `App.StoredAfterEvent` | fastapi_app.py:70-76 | after event k the stored value is event k's, so a stream cut short keeps the last value received |
| `App.EventFramesDispatch` | fastapi_app.py:73-74 | a client between events that receives one event's frames dispatches that event's JSON text, and is between events again |
| `App.FramesOfDispatch` | fastapi_app.py:66-74 | a client between events that receives the frames of a sequence of events dispatches their JSON texts, one per event and in order |
| `App.StreamDispatches` | fastapi_app.py:66-76 | a client reading the frames an event loop sends receives the JSON text of exactly the events it framed, in order |
| `App.OutlineStreamDispatches` | fastapi_app.py:59-76 | a client reading the outline response receives `{"session_id": id}` first, then the JSON text of every framed event, in order |
| `App.SessionTable.constructor` | fastapi_app.py:25 | the table starts empty |
| `App.SessionTable.Replay` | fastapi_app.py:66-76 | the event loop sends `Frames`, reports whether it ran to the end, and changes only the one field of the one session, which ends up `Stored` |
| `App.SessionTable.StreamOutline` | fastapi_app.py:39-78 | more than 200 words: 400 with the count, and the table is unchanged. Otherwise exactly one new session is added (given title and description, `outline` and `lessons` None); the frames are the `session_id` preamble, `"\n"`, then each event's frame and `"\n"`; the stored outline is the last event's |
| `App.SessionTable.StreamLessons` | fastapi_app.py:81-104 | unknown id: 404; outline None or `""`: 400; the table is unchanged on both. Otherwise the lessons graph runs on the outline read before streaming, and only that session's `lessons` changes |
| `App.SessionTable.StreamRefineLessons` | fastapi_app.py:107-130 | unknown id: 404; lessons None or `""`: 400; the table is unchanged on both. Otherwise only that session's `lessons` changes, taking each event's `refine_lessons.lessons`; title, description and outline are untouched |
| `App.SessionTable.StreamRefineLessonsFixed` | fastapi_app.py:116-128 | the same guards and frames, but the stored lessons come from `refine_lessons.refined_lessons` |
| `Pipeline.OutlineStreamCommits` | fastapi_app.py:66-76 | an outline stream from the outline node runs to completion, sends two frames per chunk, and stores the full outline (None if there were no chunks) |
| `Pipeline.LessonsStreamCommits` | fastapi_app.py:96-102 | a lessons stream runs to completion, sends one frame per chunk, and stores the full lessons text (the old value if there were no chunks) |
| `Pipeline.RefineStreamKeepsInput` | fastapi_app.py:121-128 | a refinement stream runs to completion, sends one frame per chunk, and stores the input lessons, not the refined text |
| `Pipeline.RefineDiscardsRefinement` | fastapi_app.py:128 | concrete case: refining "Week 1" into "Week 1, shorter" leaves "Week 1" stored |
| `Pipeline.RefineFixedStreamCommits` | fastapi_app.py:128 | reading `refined_lessons` stores the full refined text, replacing the old lessons |
| `Pipeline.PrepareCourse` | fastapi_app.py:39-104 | on a fresh table: the outline request creates the only session and stores the full outline; the lessons request gets 400 if the outline is None or empty (an outline stream that produced no text); otherwise it stores the full lessons |
| `Pipeline.CourseFlow` | fastapi_app.py:39-130 | all three requests in order, as written: refinement is refused without lessons, and when it runs the stored lessons stay what the lessons stage wrote |
| `Pipeline.CourseFlowFixed` | fastapi_app.py:39-130 | all three requests in order with the corrected refinement: the refined text replaces the stored lessons |

## Findings

| source | as written | input that shows it | evidently intended | confidence | as-written member | corrected member |
|---|---|---|---|---|---|---|
| fastapi_app.py:128 | stores `event_dict["refine_lessons"]["lessons"]`; the refinement node sets that field to its unchanged input (langgraph_chains.py:148-151) | stored lessons "Week 1", feedback "make it shorter", model chunks "Week 1", ", shorter": the stored lessons stay "Week 1" | store `refined_lessons`, so the refined text replaces the lessons | medium (depends on the "updates" event carrying every state field); not executed | `Pipeline.RefineDiscardsRefinement` | `App.SessionTable.StreamRefineLessonsFixed` |

## Left out

- The language model, prompt templates and `prompt | llm` piping. The model
  takes the chunk contents as a parameter.
- `StateGraph` construction and compilation, and how `astream(stream_mode="updates")`
  turns node yields into events. The handlers take the graph as a function
  parameter. `Pipeline` assumes one event `{node: all fields}` per yielded state.
- FastAPI routing, `HTTPException`, `StreamingResponse` and pydantic parsing.
  A refusal is `Rejected(status, reason)`, and `App.Detail` gives the detail text.
- `uuid.uuid4()`: the fresh id is an argument, required not to be in the table.
- The internals of `json.dumps`: it is an uninterpreted function parameter.
- The debug `print`s and `load_dotenv`.
- Concurrency: each request runs to completion before the next one starts. An
  interleaving of two streams writing to the same session is not modelled.
  Neither is a client disconnecting mid-stream, beyond a stream that ends after fewer events.
- Laziness: a handler's stream is consumed as soon as the handler is called,
  so the model does not capture that the event loop only runs while the
  client reads the response.
- test.py: it holds only a commented-out manual run and no assertions.
- The reader handles only the `data` field and the line endings. It does not
  model the `event`, `id` and `retry` fields, a leading byte order mark, or
  the decoding of bytes to text. The reader lemmas need `json.dumps` to write
  no line break, which holds because it escapes them.
