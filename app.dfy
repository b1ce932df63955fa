/**
 * The controllers of fastapi_app.py and the process-wide session table
 * `SESSIONS` they mutate.
 *
 * Each request runs to completion before the next one starts. The compiled
 * graphs are parameters: a function from the graph's input state to the
 * stream of "updates" events it produces, with a flag for a stream that ends
 * in a generation error. `uuid.uuid4()` is a parameter too, assumed fresh.
 */
module App {
  import opened Wrappers
  import opened Text
  import opened Words
  import opened Sse
  import opened Chains

  /** Largest description word count the outline endpoint accepts. */
  const MaxWords := 200

  const OutlineNode := "generate_outline"
  const LessonsNode := "generate_lessons"
  const RefineNode := "refine_lessons"

  /** One entry of `SESSIONS`. */
  datatype Session = Session(courseTitle: string, courseDescription: string,
                             outline: Option<string>, lessons: Option<string>)

  /** Request body of the outline endpoint (`CourseInput`). */
  datatype CourseInput = CourseInput(title: string, description: string)

  /** Why a request was refused before any stream was opened. */
  datatype Reason = DescriptionTooLong(words: nat) | SessionNotFound | NoOutline | NoLessons

  /** An `HTTPException`, or the frames of a `StreamingResponse` and whether the
      stream ended normally (false: a KeyError or a generation error ended it). */
  datatype Response = Rejected(status: nat, reason: Reason) | Streamed(frames: seq<string>, completed: bool)

  /** What `astream(..., stream_mode="updates")` delivers: the events, and
      whether the stream then fails instead of ending. */
  datatype GraphStream = GraphStream(events: seq<Event>, failed: bool)

  /** The session field an event loop overwrites. */
  datatype Slot = OutlineSlot | LessonsSlot

  function GetSlot(s: Session, slot: Slot): Option<string>
  {
    match slot
    case OutlineSlot => s.outline
    case LessonsSlot => s.lessons
  }

  function SetSlot(s: Session, slot: Slot, v: Option<string>): Session
  {
    match slot
    case OutlineSlot => s.(outline := v)
    case LessonsSlot => s.(lessons := v)
  }

  /** Overwriting a field twice keeps the second value only. */
  lemma SetSlotTwice(s: Session, slot: Slot, a: Option<string>, b: Option<string>)
    ensures SetSlot(SetSlot(s, slot, a), slot, b) == SetSlot(s, slot, b)
  {
  }

  /** Python's `not v` on an optional text: None and "" are both missing. */
  predicate Missing(v: Option<string>)
  {
    v.None? || v.value == ""
  }

  /** Decimal digits of n, as an f-string renders an int: at least one digit,
      and no leading zero. */
  function Decimal(n: nat): (r: string)
    ensures r != []
    ensures forall i :: 0 <= i < |r| ==> '0' <= r[i] <= '9'
    ensures r[0] == '0' <==> n == 0
    decreases n
  {
    if n < 10 then [(48 + n) as char] else Decimal(n / 10) + [(48 + n % 10) as char]
  }

  /** The number a string of decimal digits denotes, read left to right. */
  function DigitsValue(s: string): int
    decreases |s|
  {
    if s == [] then 0 else DigitsValue(s[..|s| - 1]) * 10 + (s[|s| - 1] as int - 48)
  }

  /** The count in a refusal's detail reads back as the count. */
  lemma {:induction false} DecimalRoundTrip(n: nat)
    ensures DigitsValue(Decimal(n)) == n
    decreases n
  {
    var r := Decimal(n);
    if n < 10 {
      assert r[..0] == [];
    } else {
      DecimalRoundTrip(n / 10);
      assert r[..|r| - 1] == Decimal(n / 10);
    }
  }

  /** The `detail` text of each refusal. */
  function Detail(r: Reason): string
  {
    match r
    case DescriptionTooLong(n) => "Description is too long (" + Decimal(n) + " words). Maximum allowed is 200."
    case SessionNotFound => "Session not found."
    case NoOutline => "No outline found for this session."
    case NoLessons => "No lessons found to refine."
  }

  // ---------------------------------------------------------------------------
  // The event loop, specified as folds over the event stream
  // ---------------------------------------------------------------------------

  /** `event_dict[node][key]`, or None where that lookup raises KeyError. */
  function Read(ev: Event, node: string, key: string): Option<Option<string>>
  {
    if node in ev && key in ev[node] then Some(ev[node][key]) else None
  }

  /** Every event carries the field the loop writes back. */
  predicate Readable(events: seq<Event>, node: string, key: string)
  {
    forall j :: 0 <= j < |events| ==> Read(events[j], node, key).Some?
  }

  /** Number of leading events that carry the field: the events the loop
      writes back before a KeyError, if any, ends it. */
  function Written(events: seq<Event>, node: string, key: string): (n: nat)
    ensures n <= |events|
    ensures forall j :: 0 <= j < n ==> Read(events[j], node, key).Some?
    ensures n < |events| ==> Read(events[n], node, key).None?
    decreases |events|
  {
    if events == [] || Read(events[0], node, key).None? then 0
    else 1 + Written(events[1..], node, key)
  }

  /** Number of events whose frames are sent: the written ones, and the
      event whose missing field raises the KeyError, framed before the lookup. */
  function Sent(events: seq<Event>, node: string, key: string): nat
  {
    if Written(events, node, key) < |events| then Written(events, node, key) + 1 else |events|
  }

  /** `f"data: {json.dumps(event_dict)}\n\n"`, and on the outline stream a
      separate "\n" frame after it. */
  function EventFrames(ev: Event, dumps: Json -> string, separator: bool): seq<string>
  {
    [Frame(dumps(EventJson(ev)))] + (if separator then ["\n"] else [])
  }

  /** The frames of the given events, in order. */
  function FramesOf(events: seq<Event>, dumps: Json -> string, separator: bool): seq<string>
    decreases |events|
  {
    if events == [] then []
    else FramesOf(events[..|events| - 1], dumps, separator) + EventFrames(events[|events| - 1], dumps, separator)
  }

  /** The frames the loop sends for a stream. */
  function Frames(events: seq<Event>, node: string, key: string, dumps: Json -> string, separator: bool): seq<string>
  {
    FramesOf(events[..Sent(events, node, key)], dumps, separator)
  }

  /** The field's value after the first n events were written back, starting from v. */
  function StoredAfter(events: seq<Event>, n: nat, node: string, key: string, v: Option<string>): Option<string>
    requires n <= Written(events, node, key)
  {
    if n == 0 then v else Read(events[n - 1], node, key).value
  }

  /** The field's value when the loop ends, starting from v. */
  function Stored(events: seq<Event>, node: string, key: string, v: Option<string>): Option<string>
  {
    StoredAfter(events, Written(events, node, key), node, key, v)
  }

  /** The stream ends normally exactly when every event carries the field. */
  lemma {:induction false} WrittenAll(events: seq<Event>, node: string, key: string)
    ensures Readable(events, node, key) <==> Written(events, node, key) == |events|
  {
  }

  /** Event i adds its own frames after those of the events before it. */
  lemma FramesOfStep(events: seq<Event>, i: nat, dumps: Json -> string, separator: bool)
    requires i < |events|
    ensures FramesOf(events[..i + 1], dumps, separator) == FramesOf(events[..i], dumps, separator) + EventFrames(events[i], dumps, separator)
  {
    assert events[..i + 1][..i] == events[..i];
  }

  /** When every event carries the field, every frame is sent and the stored
      value is the last event's (the initial one for an empty stream). */
  lemma StoredIsLast(events: seq<Event>, node: string, key: string, dumps: Json -> string, separator: bool,
                     v: Option<string>)
    requires Readable(events, node, key)
    ensures Frames(events, node, key, dumps, separator) == FramesOf(events, dumps, separator)
    ensures Stored(events, node, key, v) == if events == [] then v else Read(events[|events| - 1], node, key).value
  {
    WrittenAll(events, node, key);
    assert events[..|events|] == events;
  }

  /** A stream that stops after event k (a generation error, say) leaves that
      event's value stored: the table follows the stream event by event. */
  lemma StoredAfterEvent(events: seq<Event>, node: string, key: string, v: Option<string>, k: nat)
    requires Readable(events, node, key) && k < |events|
    ensures Stored(events[..k + 1], node, key, v) == Read(events[k], node, key).value
  {
    var prefix := events[..k + 1];
    assert Readable(prefix, node, key) by {
      forall j | 0 <= j < |prefix| ensures Read(prefix[j], node, key).Some? {
        assert prefix[j] == events[j];
      }
    }
    WrittenAll(prefix, node, key);
  }

  /** Event k of a stream gives frame k, or frames 2k and 2k + 1 where the
      second is the "\n" separator. */
  lemma {:induction false} FramesOfAt(events: seq<Event>, dumps: Json -> string, separator: bool, k: nat)
    requires k < |events|
    ensures separator ==> |FramesOf(events, dumps, separator)| == 2 * |events|
                          && FramesOf(events, dumps, separator)[2 * k] == Frame(dumps(EventJson(events[k])))
                          && FramesOf(events, dumps, separator)[2 * k + 1] == "\n"
    ensures !separator ==> |FramesOf(events, dumps, separator)| == |events|
                           && FramesOf(events, dumps, separator)[k] == Frame(dumps(EventJson(events[k])))
    decreases |events|
  {
    var n := |events| - 1;
    var init := events[..n];
    assert events[..n] == init;
    if k < n {
      FramesOfAt(init, dumps, separator, k);
      assert init[k] == events[k];
    } else if n > 0 {
      FramesOfAt(init, dumps, separator, 0);
    }
  }

  /** What `json.dumps` makes of each of the given events. */
  function Payloads(events: seq<Event>, dumps: Json -> string): seq<string>
  {
    seq(|events|, k requires 0 <= k < |events| => dumps(EventJson(events[k])))
  }

  /** Payloads are taken event by event. */
  lemma PayloadsStep(events: seq<Event>, dumps: Json -> string)
    requires events != []
    ensures Payloads(events, dumps)
            == Payloads(events[..|events| - 1], dumps) + [dumps(EventJson(events[|events| - 1]))]
  {
  }

  /** A reader between events that receives one event's frames dispatches
      that event's payload and is between events again. */
  lemma EventFramesDispatch(r: Reader, ev: Event, dumps: Json -> string, separator: bool)
    requires Idle(r)
    requires NoBreak(dumps(EventJson(ev)))
    ensures ReadStream(r, Concat(EventFrames(ev, dumps, separator)))
            == r.(dispatched := r.dispatched + [dumps(EventJson(ev))])
  {
    var p := dumps(EventJson(ev));
    ConcatPair(Frame(p), "\n");
    FrameDispatches(r, p);
    if separator {
      ReadStreamAppend(r, Frame(p), "\n");
      SeparatorIsInert(r.(dispatched := r.dispatched + [p]));
    }
  }

  /** A reader between events that receives the frames of some events
      dispatches their payloads, one per event and in order, and is between
      events again; this needs `json.dumps` to write no line break, which it
      does not, as it escapes them. */
  lemma {:induction false} FramesOfDispatch(r: Reader, events: seq<Event>, dumps: Json -> string, separator: bool)
    requires Idle(r)
    requires forall j :: NoBreak(dumps(j))
    ensures ReadStream(r, Concat(FramesOf(events, dumps, separator)))
            == r.(dispatched := r.dispatched + Payloads(events, dumps))
    decreases |events|
  {
    if events == [] {
      assert r.dispatched + Payloads(events, dumps) == r.dispatched;
    } else {
      var n := |events| - 1;
      var init, ev := events[..n], events[n];
      var before := FramesOf(init, dumps, separator);
      FramesOfDispatch(r, init, dumps, separator);
      ConcatAppend(before, EventFrames(ev, dumps, separator));
      ReadStreamAppend(r, Concat(before), Concat(EventFrames(ev, dumps, separator)));
      EventFramesDispatch(r.(dispatched := r.dispatched + Payloads(init, dumps)), ev, dumps, separator);
      PayloadsStep(events, dumps);
    }
  }

  /** A client reading the frames an event loop sends receives the payload of
      every event it framed, in order, and nothing else. */
  lemma StreamDispatches(events: seq<Event>, node: string, key: string, dumps: Json -> string, separator: bool)
    requires forall j :: NoBreak(dumps(j))
    ensures ReadStream(Reader("", "", false, []), Concat(Frames(events, node, key, dumps, separator))).dispatched
            == Payloads(events[..Sent(events, node, key)], dumps)
  {
    FramesOfDispatch(Reader("", "", false, []), events[..Sent(events, node, key)], dumps, separator);
  }

  /** A client reading the outline stream receives the session id and then
      the payload of every event framed, in order. */
  lemma OutlineStreamDispatches(id: string, events: seq<Event>, dumps: Json -> string)
    requires forall j :: NoBreak(dumps(j))
    ensures ReadStream(Reader("", "", false, []),
                       Concat([Frame(dumps(SessionPreamble(id))), "\n"] + Frames(events, OutlineNode, "outline", dumps, true))).dispatched
            == [dumps(SessionPreamble(id))] + Payloads(events[..Sent(events, OutlineNode, "outline")], dumps)
  {
    var r := Reader("", "", false, []);
    var p := dumps(SessionPreamble(id));
    var head := [Frame(p), "\n"];
    var sent := events[..Sent(events, OutlineNode, "outline")];
    ConcatAppend(head, Frames(events, OutlineNode, "outline", dumps, true));
    ConcatPair(Frame(p), "\n");
    ReadStreamAppend(r, Concat(head), Concat(Frames(events, OutlineNode, "outline", dumps, true)));
    ReadStreamAppend(r, Frame(p), "\n");
    FrameDispatches(r, p);
    assert r.dispatched + [p] == [p];
    SeparatorIsInert(r.(dispatched := [p]));
    assert Frames(events, OutlineNode, "outline", dumps, true) == FramesOf(sent, dumps, true);
    FramesOfDispatch(r.(dispatched := [p]), sent, dumps, true);
  }

  /** `SESSIONS`: session id to session record. */
  class SessionTable {
    var sessions: map<string, Session>

    /** `SESSIONS = {}`. */
    constructor ()
      ensures sessions == map[]
    {
      sessions := map[];
    }

    /** The `async for event in ...` loop of every `event_generator`: frame
        each event, then overwrite one field of session id with the event's
        `event_dict[node][key]`; a missing key ends the loop (KeyError). */
    method Replay(id: string, slot: Slot, node: string, key: string, events: seq<Event>,
                  dumps: Json -> string, separator: bool) returns (frames: seq<string>, ok: bool)
      requires id in sessions
      modifies this
      ensures frames == Frames(events, node, key, dumps, separator)
      ensures ok == Readable(events, node, key)
      ensures sessions == old(sessions)[id := SetSlot(old(sessions)[id], slot,
                                                      Stored(events, node, key, GetSlot(old(sessions)[id], slot)))]
    {
      ghost var session := sessions[id];
      ghost var init := GetSlot(session, slot);
      frames := [];
      ok := true;
      var i := 0;
      while i < |events|
        invariant 0 <= i <= Written(events, node, key)
        invariant sessions == old(sessions)[id := SetSlot(session, slot, StoredAfter(events, i, node, key, init))]
        invariant frames == FramesOf(events[..i], dumps, separator)
      {
        var event := events[i];
        FramesOfStep(events, i, dumps, separator);
        frames := frames + EventFrames(event, dumps, separator);
        var value := Read(event, node, key);
        if value.None? {
          assert Written(events, node, key) == i && Sent(events, node, key) == i + 1;
          ok := false;
          break;
        }
        SetSlotTwice(session, slot, StoredAfter(events, i, node, key, init), value.value);
        sessions := sessions[id := SetSlot(sessions[id], slot, value.value)];
        i := i + 1;
      }
      WrittenAll(events, node, key);
      if ok {
        assert events[..i] == events;
      }
    }

    /** `stream_outline`: refuse a description of more than 200 words before
        touching the table; otherwise create the session with both artifacts
        None, send the session id, then stream the outline graph's events and
        store each event's outline. */
    method StreamOutline(input: CourseInput, freshId: string, graph: OutlineState -> GraphStream,
                         dumps: Json -> string) returns (r: Response)
      requires freshId !in sessions
      modifies this
      ensures WordCount(input.description) > MaxWords ==>
                r == Rejected(400, DescriptionTooLong(WordCount(input.description)))
                && sessions == old(sessions)
      ensures WordCount(input.description) <= MaxWords ==>
                var stream := graph(OutlineState(input.title, input.description, None));
                && r == Streamed([Frame(dumps(SessionPreamble(freshId))), "\n"]
                                 + Frames(stream.events, OutlineNode, "outline", dumps, true),
                                 Readable(stream.events, OutlineNode, "outline") && !stream.failed)
                && sessions == old(sessions)[freshId := Session(input.title, input.description,
                                                                Stored(stream.events, OutlineNode, "outline", None),
                                                                None)]
    {
      var wordCount := |Split(input.description)|;
      if wordCount > MaxWords {
        return Rejected(400, DescriptionTooLong(wordCount));
      }
      sessions := sessions[freshId := Session(input.title, input.description, None, None)];
      var frames := [Frame(dumps(SessionPreamble(freshId))), "\n"];
      var stream := graph(OutlineState(input.title, input.description, None));
      var eventFrames, ok := Replay(freshId, OutlineSlot, OutlineNode, "outline", stream.events, dumps, true);
      r := Streamed(frames + eventFrames, ok && !stream.failed);
    }

    /** `stream_lessons`: 404 for an unknown session, 400 when its outline is
        None or empty, both before any change; otherwise stream the lessons
        graph over the outline read before streaming and store each event's
        lessons. */
    method StreamLessons(sessionId: string, graph: LessonsState -> GraphStream, dumps: Json -> string)
      returns (r: Response)
      modifies this
      ensures sessionId !in old(sessions) ==>
                r == Rejected(404, SessionNotFound) && sessions == old(sessions)
      ensures sessionId in old(sessions) && Missing(old(sessions)[sessionId].outline) ==>
                r == Rejected(400, NoOutline) && sessions == old(sessions)
      ensures sessionId in old(sessions) && !Missing(old(sessions)[sessionId].outline) ==>
                var session := old(sessions)[sessionId];
                var stream := graph(LessonsState(session.outline.value, None));
                && r == Streamed(Frames(stream.events, LessonsNode, "lessons", dumps, false),
                                 Readable(stream.events, LessonsNode, "lessons") && !stream.failed)
                && sessions == old(sessions)[sessionId := session.(lessons :=
                                               Stored(stream.events, LessonsNode, "lessons", session.lessons))]
    {
      if sessionId !in sessions {
        return Rejected(404, SessionNotFound);
      }
      var outline := sessions[sessionId].outline;
      if Missing(outline) {
        return Rejected(400, NoOutline);
      }
      var stream := graph(LessonsState(outline.value, None));
      var frames, ok := Replay(sessionId, LessonsSlot, LessonsNode, "lessons", stream.events, dumps, false);
      r := Streamed(frames, ok && !stream.failed);
    }

    /** `stream_refine_lessons` as written: 404 for an unknown session, 400
        when its lessons are None or empty, both before any change; otherwise
        stream the refinement graph over the stored lessons and the feedback,
        and store each event's `refine_lessons.lessons`, the field the
        refinement node copies from its input. */
    method StreamRefineLessons(sessionId: string, feedback: string, graph: RefineState -> GraphStream,
                               dumps: Json -> string) returns (r: Response)
      modifies this
      ensures sessionId !in old(sessions) ==>
                r == Rejected(404, SessionNotFound) && sessions == old(sessions)
      ensures sessionId in old(sessions) && Missing(old(sessions)[sessionId].lessons) ==>
                r == Rejected(400, NoLessons) && sessions == old(sessions)
      ensures sessionId in old(sessions) && !Missing(old(sessions)[sessionId].lessons) ==>
                var session := old(sessions)[sessionId];
                var stream := graph(RefineState(session.lessons.value, feedback, None));
                && r == Streamed(Frames(stream.events, RefineNode, "lessons", dumps, false),
                                 Readable(stream.events, RefineNode, "lessons") && !stream.failed)
                && sessions == old(sessions)[sessionId := session.(lessons :=
                                               Stored(stream.events, RefineNode, "lessons", session.lessons))]
    {
      if sessionId !in sessions {
        return Rejected(404, SessionNotFound);
      }
      var lessons := sessions[sessionId].lessons;
      if Missing(lessons) {
        return Rejected(400, NoLessons);
      }
      var stream := graph(RefineState(lessons.value, feedback, None));
      var frames, ok := Replay(sessionId, LessonsSlot, RefineNode, "lessons", stream.events, dumps, false);
      r := Streamed(frames, ok && !stream.failed);
    }

    /** The refinement controller as evidently intended: identical to
        StreamRefineLessons except that it stores `refine_lessons.refined_lessons`,
        the text the refinement node accumulates. */
    method StreamRefineLessonsFixed(sessionId: string, feedback: string, graph: RefineState -> GraphStream,
                                    dumps: Json -> string) returns (r: Response)
      modifies this
      ensures sessionId !in old(sessions) ==>
                r == Rejected(404, SessionNotFound) && sessions == old(sessions)
      ensures sessionId in old(sessions) && Missing(old(sessions)[sessionId].lessons) ==>
                r == Rejected(400, NoLessons) && sessions == old(sessions)
      ensures sessionId in old(sessions) && !Missing(old(sessions)[sessionId].lessons) ==>
                var session := old(sessions)[sessionId];
                var stream := graph(RefineState(session.lessons.value, feedback, None));
                && r == Streamed(Frames(stream.events, RefineNode, "refined_lessons", dumps, false),
                                 Readable(stream.events, RefineNode, "refined_lessons") && !stream.failed)
                && sessions == old(sessions)[sessionId := session.(lessons :=
                                               Stored(stream.events, RefineNode, "refined_lessons", session.lessons))]
    {
      if sessionId !in sessions {
        return Rejected(404, SessionNotFound);
      }
      var lessons := sessions[sessionId].lessons;
      if Missing(lessons) {
        return Rejected(400, NoLessons);
      }
      var stream := graph(RefineState(lessons.value, feedback, None));
      var frames, ok := Replay(sessionId, LessonsSlot, RefineNode, "refined_lessons", stream.events, dumps, false);
      r := Streamed(frames, ok && !stream.failed);
    }
  }
}
