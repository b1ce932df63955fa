/**
 * The three generation nodes of langgraph_chains.py.
 *
 * Each node streams chunks from the language model, appends every chunk's
 * content to an accumulator that starts at "", and yields a new graph state
 * after every chunk: the node's fixed inputs, copied unchanged, plus the
 * accumulator in the node's output field. The model call itself is not part
 * of this model; the chunk contents it would deliver are a parameter.
 */
module Chains {
  import opened Wrappers
  import opened Text

  /** Graph state of the outline graph; `outline` defaults to None. */
  datatype OutlineState = OutlineState(title: string, description: string, outline: Option<string>)

  /** Graph state of the lessons graph; `lessons` defaults to None. */
  datatype LessonsState = LessonsState(outline: string, lessons: Option<string>)

  /** Graph state of the refinement graph; `refined_lessons` defaults to None. */
  datatype RefineState = RefineState(lessons: string, feedback: string, refinedLessons: Option<string>)

  // ---------------------------------------------------------------------------
  // Specifications of one run of each node
  // ---------------------------------------------------------------------------

  /** The states the outline node yields: emission k carries the input's title
      and description and the text of the first k + 1 chunks. */
  function OutlineRun(st: OutlineState, chunks: seq<string>): seq<OutlineState>
  {
    seq(|chunks|, k requires 0 <= k < |chunks| => OutlineState(st.title, st.description, Some(Concat(chunks[..k + 1]))))
  }

  /** The states the lessons node yields: emission k carries the input outline
      and the text of the first k + 1 chunks as lessons. */
  function LessonsRun(st: LessonsState, chunks: seq<string>): seq<LessonsState>
  {
    seq(|chunks|, k requires 0 <= k < |chunks| => LessonsState(st.outline, Some(Concat(chunks[..k + 1]))))
  }

  /** The states the refinement node yields: emission k carries the input lessons
      and feedback and the text of the first k + 1 chunks as refined lessons. */
  function RefineRun(st: RefineState, chunks: seq<string>): seq<RefineState>
  {
    seq(|chunks|, k requires 0 <= k < |chunks| => RefineState(st.lessons, st.feedback, Some(Concat(chunks[..k + 1]))))
  }

  // ---------------------------------------------------------------------------
  // The nodes
  // ---------------------------------------------------------------------------

  /** generate_outline_async: one emission per chunk, each holding the input's
      title and description and everything received so far. */
  method GenerateOutline(st: OutlineState, chunks: seq<string>) returns (emitted: seq<OutlineState>)
    ensures |emitted| == |chunks|
    ensures forall k :: 0 <= k < |emitted| ==>
              emitted[k].title == st.title && emitted[k].description == st.description
    ensures forall k :: 0 <= k < |emitted| ==> emitted[k].outline == Some(Concat(chunks[..k + 1]))
    ensures emitted == OutlineRun(st, chunks)
  {
    var partialOutline := "";
    emitted := [];
    for i := 0 to |chunks|
      invariant partialOutline == Concat(chunks[..i])
      invariant |emitted| == i
      invariant forall k :: 0 <= k < i ==>
                  emitted[k] == OutlineState(st.title, st.description, Some(Concat(chunks[..k + 1])))
    {
      ConcatStep(chunks, i);
      partialOutline := partialOutline + chunks[i];
      emitted := emitted + [OutlineState(st.title, st.description, Some(partialOutline))];
    }
  }

  /** generate_lessons_async: one emission per chunk, each holding the input
      outline and everything received so far as lessons. */
  method GenerateLessons(st: LessonsState, chunks: seq<string>) returns (emitted: seq<LessonsState>)
    ensures |emitted| == |chunks|
    ensures forall k :: 0 <= k < |emitted| ==> emitted[k].outline == st.outline
    ensures forall k :: 0 <= k < |emitted| ==> emitted[k].lessons == Some(Concat(chunks[..k + 1]))
    ensures emitted == LessonsRun(st, chunks)
  {
    var partialLessons := "";
    emitted := [];
    for i := 0 to |chunks|
      invariant partialLessons == Concat(chunks[..i])
      invariant |emitted| == i
      invariant forall k :: 0 <= k < i ==>
                  emitted[k] == LessonsState(st.outline, Some(Concat(chunks[..k + 1])))
    {
      ConcatStep(chunks, i);
      partialLessons := partialLessons + chunks[i];
      emitted := emitted + [LessonsState(st.outline, Some(partialLessons))];
    }
  }

  /** refine_lessons_async: one emission per chunk; the input lessons and
      feedback are copied unchanged and only `refined_lessons` accumulates. */
  method RefineLessons(st: RefineState, chunks: seq<string>) returns (emitted: seq<RefineState>)
    ensures |emitted| == |chunks|
    ensures forall k :: 0 <= k < |emitted| ==>
              emitted[k].lessons == st.lessons && emitted[k].feedback == st.feedback
    ensures forall k :: 0 <= k < |emitted| ==> emitted[k].refinedLessons == Some(Concat(chunks[..k + 1]))
    ensures emitted == RefineRun(st, chunks)
  {
    var partialRefined := "";
    emitted := [];
    for i := 0 to |chunks|
      invariant partialRefined == Concat(chunks[..i])
      invariant |emitted| == i
      invariant forall k :: 0 <= k < i ==>
                  emitted[k] == RefineState(st.lessons, st.feedback, Some(Concat(chunks[..k + 1])))
    {
      ConcatStep(chunks, i);
      partialRefined := partialRefined + chunks[i];
      emitted := emitted + [RefineState(st.lessons, st.feedback, Some(partialRefined))];
    }
  }

  // ---------------------------------------------------------------------------
  // Properties of the runs
  // ---------------------------------------------------------------------------

  /** Every emitted outline is a prefix of every later one in the same run. */
  lemma OutlinePrefixIncreasing(st: OutlineState, chunks: seq<string>, i: nat, j: nat)
    requires i <= j < |chunks|
    ensures OutlineRun(st, chunks)[i].outline.Some? && OutlineRun(st, chunks)[j].outline.Some?
    ensures OutlineRun(st, chunks)[i].outline.value <= OutlineRun(st, chunks)[j].outline.value
  {
    ConcatPrefix(chunks, i + 1, j + 1);
  }

  /** Every emitted lessons text is a prefix of every later one in the same run. */
  lemma LessonsPrefixIncreasing(st: LessonsState, chunks: seq<string>, i: nat, j: nat)
    requires i <= j < |chunks|
    ensures LessonsRun(st, chunks)[i].lessons.Some? && LessonsRun(st, chunks)[j].lessons.Some?
    ensures LessonsRun(st, chunks)[i].lessons.value <= LessonsRun(st, chunks)[j].lessons.value
  {
    ConcatPrefix(chunks, i + 1, j + 1);
  }

  /** Every emitted refined text is a prefix of every later one, while the
      emitted `lessons` field stays the input's value throughout the run. */
  lemma RefinePrefixIncreasing(st: RefineState, chunks: seq<string>, i: nat, j: nat)
    requires i <= j < |chunks|
    ensures RefineRun(st, chunks)[i].lessons == RefineRun(st, chunks)[j].lessons == st.lessons
    ensures RefineRun(st, chunks)[i].refinedLessons.Some? && RefineRun(st, chunks)[j].refinedLessons.Some?
    ensures RefineRun(st, chunks)[i].refinedLessons.value <= RefineRun(st, chunks)[j].refinedLessons.value
  {
    ConcatPrefix(chunks, i + 1, j + 1);
  }

  /** The last emission of a non-empty run holds the text of all the chunks. */
  lemma RunsEndComplete(o: OutlineState, l: LessonsState, r: RefineState, chunks: seq<string>)
    requires chunks != []
    ensures OutlineRun(o, chunks)[|chunks| - 1].outline == Some(Concat(chunks))
    ensures LessonsRun(l, chunks)[|chunks| - 1].lessons == Some(Concat(chunks))
    ensures RefineRun(r, chunks)[|chunks| - 1].refinedLessons == Some(Concat(chunks))
  {
    assert chunks[..|chunks|] == chunks;
  }

  /** Each run starts from a fresh accumulator: what a node emits depends on
      its fixed inputs and the chunks only, never on an output value already
      present in the input state or on an earlier run. */
  lemma RunsStartFresh(o1: OutlineState, o2: OutlineState, l1: LessonsState, l2: LessonsState,
                       r1: RefineState, r2: RefineState, chunks: seq<string>)
    requires o1.title == o2.title && o1.description == o2.description
    requires l1.outline == l2.outline
    requires r1.lessons == r2.lessons && r1.feedback == r2.feedback
    ensures OutlineRun(o1, chunks) == OutlineRun(o2, chunks)
    ensures LessonsRun(l1, chunks) == LessonsRun(l2, chunks)
    ensures RefineRun(r1, chunks) == RefineRun(r2, chunks)
  {
  }
}
