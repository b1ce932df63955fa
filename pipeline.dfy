/**
 * The graphs as the controllers see them. A compiled graph streamed with
 * `stream_mode="updates"` is taken to deliver one event `{node: fields}` per
 * state its node yields, holding every field of that state, and to end
 * without error. Under that assumption the stage runs of Chains and the
 * event loops of App fit together, and the lemmas here say what the
 * session table holds once a stream has been consumed.
 */
module Pipeline {
  import opened Wrappers
  import opened Text
  import opened Chains
  import opened Sse
  import opened Words
  import opened App

  /** The event for one yielded outline state. */
  function OutlineUpdate(s: OutlineState): Event
  {
    map[OutlineNode := map["title" := Some(s.title), "description" := Some(s.description), "outline" := s.outline]]
  }

  /** The event for one yielded lessons state. */
  function LessonsUpdate(s: LessonsState): Event
  {
    map[LessonsNode := map["outline" := Some(s.outline), "lessons" := s.lessons]]
  }

  /** The event for one yielded refinement state. */
  function RefineUpdate(s: RefineState): Event
  {
    map[RefineNode := map["lessons" := Some(s.lessons), "feedback" := Some(s.feedback),
                          "refined_lessons" := s.refinedLessons]]
  }

  /** The events of one outline run: one update per yielded state. */
  function OutlineEvents(st: OutlineState, chunks: seq<string>): seq<Event>
  {
    seq(|chunks|, k requires 0 <= k < |chunks| => OutlineUpdate(OutlineRun(st, chunks)[k]))
  }

  /** The events of one lessons run. */
  function LessonsEvents(st: LessonsState, chunks: seq<string>): seq<Event>
  {
    seq(|chunks|, k requires 0 <= k < |chunks| => LessonsUpdate(LessonsRun(st, chunks)[k]))
  }

  /** The events of one refinement run. */
  function RefineEvents(st: RefineState, chunks: seq<string>): seq<Event>
  {
    seq(|chunks|, k requires 0 <= k < |chunks| => RefineUpdate(RefineRun(st, chunks)[k]))
  }

  /** The compiled outline graph over a model that answers with the given chunks. */
  function OutlineGraph(chunks: seq<string>): OutlineState -> GraphStream
  {
    st => GraphStream(OutlineEvents(st, chunks), false)
  }

  /** The compiled lessons graph over a model that answers with the given chunks. */
  function LessonsGraph(chunks: seq<string>): LessonsState -> GraphStream
  {
    st => GraphStream(LessonsEvents(st, chunks), false)
  }

  /** The compiled refinement graph over a model that answers with the given chunks. */
  function RefineGraph(chunks: seq<string>): RefineState -> GraphStream
  {
    st => GraphStream(RefineEvents(st, chunks), false)
  }

  /** The text a completed stage leaves in the session: the whole generated
      text, or the old value when the model produced no chunk. */
  function Committed(chunks: seq<string>, old_: Option<string>): Option<string>
  {
    if chunks == [] then old_ else Some(Concat(chunks))
  }

  /** An outline stream runs to its end, sends two frames per chunk, and
      leaves the full generated outline stored (None if no chunk came). */
  lemma OutlineStreamCommits(st: OutlineState, chunks: seq<string>, dumps: Json -> string)
    ensures Readable(OutlineEvents(st, chunks), OutlineNode, "outline")
    ensures |Frames(OutlineEvents(st, chunks), OutlineNode, "outline", dumps, true)| == 2 * |chunks|
    ensures Stored(OutlineEvents(st, chunks), OutlineNode, "outline", None) == Committed(chunks, None)
  {
    var events := OutlineEvents(st, chunks);
    StoredIsLast(events, OutlineNode, "outline", dumps, true, None);
    if chunks != [] {
      RunsEndComplete(st, LessonsState("", None), RefineState("", "", None), chunks);
      FramesOfAt(events, dumps, true, 0);
    }
  }

  /** A lessons stream runs to its end, sends one frame per chunk, and leaves
      the full generated lessons stored (the old value if no chunk came). */
  lemma LessonsStreamCommits(st: LessonsState, chunks: seq<string>, dumps: Json -> string, old_: Option<string>)
    ensures Readable(LessonsEvents(st, chunks), LessonsNode, "lessons")
    ensures |Frames(LessonsEvents(st, chunks), LessonsNode, "lessons", dumps, false)| == |chunks|
    ensures Stored(LessonsEvents(st, chunks), LessonsNode, "lessons", old_) == Committed(chunks, old_)
  {
    var events := LessonsEvents(st, chunks);
    StoredIsLast(events, LessonsNode, "lessons", dumps, false, old_);
    if chunks != [] {
      RunsEndComplete(OutlineState("", "", None), st, RefineState("", "", None), chunks);
      FramesOfAt(events, dumps, false, 0);
    }
  }

  /** As written, the refinement stream stores the `lessons` field of each
      event, which the refinement node copies from its input: the stored
      lessons end up the input lessons, not the refined text. */
  lemma RefineStreamKeepsInput(st: RefineState, chunks: seq<string>, dumps: Json -> string, old_: Option<string>)
    ensures Readable(RefineEvents(st, chunks), RefineNode, "lessons")
    ensures |Frames(RefineEvents(st, chunks), RefineNode, "lessons", dumps, false)| == |chunks|
    ensures Stored(RefineEvents(st, chunks), RefineNode, "lessons", old_)
            == if chunks == [] then old_ else Some(st.lessons)
  {
    var events := RefineEvents(st, chunks);
    StoredIsLast(events, RefineNode, "lessons", dumps, false, old_);
    if chunks != [] {
      FramesOfAt(events, dumps, false, 0);
    }
  }

  /** The input that shows it: refining "Week 1" with a model that answers
      "Week 1, shorter" stores "Week 1" again. */
  lemma RefineDiscardsRefinement()
    ensures var st := RefineState("Week 1", "make it shorter", None);
            var chunks := ["Week 1", ", shorter"];
            && Stored(RefineEvents(st, chunks), RefineNode, "lessons", Some("Week 1")) == Some("Week 1")
            && Committed(chunks, Some("Week 1")) == Some("Week 1, shorter")
  {
    var st := RefineState("Week 1", "make it shorter", None);
    var chunks := ["Week 1", ", shorter"];
    RefineStreamKeepsInput(st, chunks, _ => "", Some("Week 1"));
    assert chunks[..1][..0] == [] && chunks[..1] == ["Week 1"];
    assert Concat(chunks) == "Week 1" + ", shorter";
    assert "Week 1" + ", shorter" == "Week 1, shorter";
  }

  /** Reading `refined_lessons` instead, the refinement stream leaves the full
      refined text stored, replacing the old lessons. */
  lemma RefineFixedStreamCommits(st: RefineState, chunks: seq<string>, dumps: Json -> string, old_: Option<string>)
    ensures Readable(RefineEvents(st, chunks), RefineNode, "refined_lessons")
    ensures |Frames(RefineEvents(st, chunks), RefineNode, "refined_lessons", dumps, false)| == |chunks|
    ensures Stored(RefineEvents(st, chunks), RefineNode, "refined_lessons", old_) == Committed(chunks, old_)
  {
    var events := RefineEvents(st, chunks);
    StoredIsLast(events, RefineNode, "refined_lessons", dumps, false, old_);
    if chunks != [] {
      RunsEndComplete(OutlineState("", "", None), LessonsState("", None), st, chunks);
      FramesOfAt(events, dumps, false, 0);
    }
  }

  // ---------------------------------------------------------------------------
  // A whole course, one request after another
  // ---------------------------------------------------------------------------

  /** A fresh table, an outline request and a lessons request for its session. */
  method PrepareCourse(input: CourseInput, id: string, outlineChunks: seq<string>, lessonsChunks: seq<string>,
                       dumps: Json -> string)
    returns (table: SessionTable, outlineResponse: Response, lessonsResponse: Response)
    requires WordCount(input.description) <= MaxWords
    ensures fresh(table)
    ensures outlineResponse.Streamed? && outlineResponse.completed
    ensures |outlineResponse.frames| == 2 + 2 * |outlineChunks|
    ensures outlineResponse.frames[0] == Frame(dumps(SessionPreamble(id)))
    ensures Missing(Committed(outlineChunks, None)) ==> lessonsResponse == Rejected(400, NoOutline)
    ensures !Missing(Committed(outlineChunks, None)) ==>
              lessonsResponse.Streamed? && lessonsResponse.completed && |lessonsResponse.frames| == |lessonsChunks|
    ensures table.sessions == map[id := Session(input.title, input.description, Committed(outlineChunks, None),
                                                if Missing(Committed(outlineChunks, None)) then None
                                                else Committed(lessonsChunks, None))]
  {
    table := new SessionTable();
    var st := OutlineState(input.title, input.description, None);
    OutlineStreamCommits(st, outlineChunks, dumps);
    outlineResponse := table.StreamOutline(input, id, OutlineGraph(outlineChunks), dumps);
    var outline := Committed(outlineChunks, None);
    if !Missing(outline) {
      LessonsStreamCommits(LessonsState(outline.value, None), lessonsChunks, dumps, None);
    }
    lessonsResponse := table.StreamLessons(id, LessonsGraph(lessonsChunks), dumps);
  }

  /** The three stages in order, as written. The lessons request is refused
      while the outline is None or empty (so is the refinement, as there are
      no lessons), and the refinement, when it runs, streams its events but
      leaves the stored lessons as the lessons stage wrote them. */
  method CourseFlow(input: CourseInput, id: string, feedback: string, outlineChunks: seq<string>,
                    lessonsChunks: seq<string>, refineChunks: seq<string>, dumps: Json -> string)
    returns (outlineResponse: Response, lessonsResponse: Response, refineResponse: Response, final: Session)
    requires WordCount(input.description) <= MaxWords
    ensures outlineResponse.Streamed? && outlineResponse.completed
    ensures final.courseTitle == input.title && final.courseDescription == input.description
    ensures final.outline == Committed(outlineChunks, None)
    ensures Missing(final.outline) ==>
              lessonsResponse == Rejected(400, NoOutline) && refineResponse == Rejected(400, NoLessons)
              && final.lessons == None
    ensures !Missing(final.outline) ==> lessonsResponse.Streamed? && lessonsResponse.completed
    ensures !Missing(final.outline) && Missing(Committed(lessonsChunks, None)) ==>
              refineResponse == Rejected(400, NoLessons)
    ensures !Missing(final.outline) && !Missing(Committed(lessonsChunks, None)) ==>
              refineResponse.Streamed? && refineResponse.completed && |refineResponse.frames| == |refineChunks|
    ensures !Missing(final.outline) ==> final.lessons == Committed(lessonsChunks, None)
  {
    var table;
    table, outlineResponse, lessonsResponse := PrepareCourse(input, id, outlineChunks, lessonsChunks, dumps);
    var lessons := table.sessions[id].lessons;
    if !Missing(lessons) {
      RefineStreamKeepsInput(RefineState(lessons.value, feedback, None), refineChunks, dumps, lessons);
    }
    refineResponse := table.StreamRefineLessons(id, feedback, RefineGraph(refineChunks), dumps);
    final := table.sessions[id];
  }

  /** The three stages in order with the corrected refinement controller: the
      refined text replaces the stored lessons. */
  method CourseFlowFixed(input: CourseInput, id: string, feedback: string, outlineChunks: seq<string>,
                         lessonsChunks: seq<string>, refineChunks: seq<string>, dumps: Json -> string)
    returns (outlineResponse: Response, lessonsResponse: Response, refineResponse: Response, final: Session)
    requires WordCount(input.description) <= MaxWords
    ensures outlineResponse.Streamed? && outlineResponse.completed
    ensures final.outline == Committed(outlineChunks, None)
    ensures Missing(final.outline) ==>
              lessonsResponse == Rejected(400, NoOutline) && refineResponse == Rejected(400, NoLessons)
              && final.lessons == None
    ensures !Missing(final.outline) && Missing(Committed(lessonsChunks, None)) ==>
              refineResponse == Rejected(400, NoLessons) && final.lessons == Committed(lessonsChunks, None)
    ensures !Missing(final.outline) && !Missing(Committed(lessonsChunks, None)) ==>
              refineResponse.Streamed? && refineResponse.completed
              && final.lessons == Committed(refineChunks, Committed(lessonsChunks, None))
  {
    var table;
    table, outlineResponse, lessonsResponse := PrepareCourse(input, id, outlineChunks, lessonsChunks, dumps);
    var lessons := table.sessions[id].lessons;
    if !Missing(lessons) {
      RefineFixedStreamCommits(RefineState(lessons.value, feedback, None), refineChunks, dumps, lessons);
    }
    refineResponse := table.StreamRefineLessonsFixed(id, feedback, RefineGraph(refineChunks), dumps);
    final := table.sessions[id];
  }
}
