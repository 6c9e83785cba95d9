/**
 * The orchestrator of backend/app/idea_symphony.py: the list reshaping and
 * text building around the agent calls.
 *
 * Each agent (`Agent(**config).run`) is a function parameter: it is given what
 * its prompt embeds (a request value; the fixed prompt wording is not part of
 * the model) and answers with the declared record type, or fails, in which
 * case the stage raises and stops. Every operation that calls an agent also
 * returns the requests it sent, in order, so that its contract can say which
 * calls were made.
 */
module Symphony {
  import opened Models
  import opened Seqs
  import opened Text

  /** One question of a chunk: the dictionary with "short_summary" and "full_description". */
  datatype ChunkQuestion = ChunkQuestion(shortSummary: string, fullDescription: string)

  /** One chunk: the dictionary with "heading" and "questions". */
  datatype Chunk = Chunk(heading: string, questions: seq<ChunkQuestion>)

  /**
   * The calls of a stage that sends the `planned` requests one after another
   * and stops at the first failure: the calls are a prefix of the plan, every
   * call but the last succeeded, and the stage failed exactly when the last
   * call failed; a stage that did not fail made every planned call.
   */
  predicate RanUntilFailure<Q(==), T>(run: Q -> Result<T, string>, planned: seq<Q>, calls: seq<Q>, failed: bool)
  {
    && |calls| <= |planned|
    && calls == planned[..|calls|]
    && (forall i :: 0 <= i < |calls| - 1 ==> run(calls[i]).Success?)
    && if failed then calls != [] && run(calls[|calls| - 1]).Failure?
       else calls == planned && forall i :: 0 <= i < |calls| ==> run(calls[i]).Success?
  }

  /** The number of rounds of `for i in range(count)`: none for a negative count. */
  function Rounds(count: int): nat
  {
    if count < 0 then 0 else count
  }

  // ---------------------------------------------------------------------------
  // create_context

  /** What the context prompt embeds: the idea and the document text. */
  datatype ContextRequest = ContextRequest(idea: string, document: string)

  /** The text sent in place of a missing or empty document. */
  const NoDocument := "No additional document provided"

  /**
   * The request for an idea: `document_content or "No additional document
   * provided"`, so a missing document and an empty one (falsy in Python) are
   * sent alike.
   */
  function ContextRequestOf(input: IdeaInput): (r: ContextRequest)
    ensures r.idea == input.ideaText
    ensures input.documentContent.None? || input.documentContent == Some("") ==> r.document == NoDocument
    ensures input.documentContent.Some? && input.documentContent.value != "" ==> r.document == input.documentContent.value
  {
    var document := if input.documentContent.Some? && input.documentContent.value != "" then input.documentContent.value else NoDocument;
    ContextRequest(input.ideaText, document)
  }

  /** A missing document and an empty uploaded one give the same request. */
  lemma EmptyDocumentLikeMissing(ideaText: string)
    ensures ContextRequestOf(IdeaInput(ideaText, Some(""))) == ContextRequestOf(IdeaInput(ideaText, None))
  {
  }

  /** Ideas with distinct non-empty documents give distinct requests. */
  lemma DocumentsDistinguished(ideaText: string, a: string, b: string)
    requires a != "" && b != "" && a != b
    ensures ContextRequestOf(IdeaInput(ideaText, Some(a))) != ContextRequestOf(IdeaInput(ideaText, Some(b)))
  {
  }

  /** One call of the context agent, whose answer is the result. */
  function CreateContext(input: IdeaInput, distil: ContextRequest -> Result<BrainstormingContext, string>)
    : (r: (Result<BrainstormingContext, string>, ContextRequest))
    ensures r.1 == ContextRequestOf(input)
    ensures r.0 == distil(ContextRequestOf(input))
  {
    var request := ContextRequestOf(input);
    (distil(request), request)
  }

  // ---------------------------------------------------------------------------
  // generate_questions

  /** What one question-generation prompt embeds: the requested range of question counts and the context text. */
  datatype QuestionRequest = QuestionRequest(minQuestions: nat, maxQuestions: nat, context: string)

  /** The range of question counts asked for in round `round` (0-based). */
  function QuestionRange(round: nat): (r: (nat, nat))
    ensures r.0 < r.1
    ensures r.1 - r.0 == 3 + round
    ensures r.0 >= 5 && r.1 >= 8
  {
    (5 + round * 2, 8 + round * 3)
  }

  /** Later rounds ask for more questions, at both ends of the range. */
  lemma QuestionRangeGrows(i: nat, j: nat)
    requires i < j
    ensures QuestionRange(i).0 < QuestionRange(j).0
    ensures QuestionRange(i).1 < QuestionRange(j).1
  {
  }

  /** Two models: the first round asks for 5 to 8 questions, the second for 7 to 11. */
  lemma TwoRoundRanges()
    ensures QuestionRange(0) == (5, 8) && QuestionRange(1) == (7, 11)
  {
  }

  /** The requests of the `count` rounds, in round order. */
  function QuestionRequests(context: BrainstormingContext, count: int): (rs: seq<QuestionRequest>)
    ensures |rs| == Rounds(count)
  {
    seq(Rounds(count), i requires 0 <= i => QuestionRequest(QuestionRange(i).0, QuestionRange(i).1, context.context))
  }

  method GenerateQuestions(context: BrainstormingContext, modelCount: int,
                           generate: QuestionRequest -> Result<BrainstormQuestions, string>)
    returns (outcome: Result<seq<BrainstormQuestions>, string>, calls: seq<QuestionRequest>)
    ensures RanUntilFailure(generate, QuestionRequests(context, modelCount), calls, outcome.Failure?)
    ensures outcome.Failure? ==> calls != [] && generate(calls[|calls| - 1]) == Failure(outcome.error)
    ensures outcome.Success? ==> |outcome.value| == |calls| == Rounds(modelCount)
    ensures outcome.Success? ==>
      forall i :: 0 <= i < |calls| ==> generate(calls[i]) == Success(outcome.value[i])
  {
    var planned := QuestionRequests(context, modelCount);
    var questionSets: seq<BrainstormQuestions> := [];
    calls := [];
    for i := 0 to Rounds(modelCount)
      invariant calls == planned[..i]
      invariant |questionSets| == i
      invariant forall k :: 0 <= k < i ==> generate(calls[k]) == Success(questionSets[k])
    {
      var (low, high) := QuestionRange(i);
      var request := QuestionRequest(low, high, context.context);
      calls := calls + [request];
      var result := generate(request);
      if result.Failure? {
        outcome := Failure(result.error);
        return;
      }
      questionSets := questionSets + [result.value];
    }
    outcome := Success(questionSets);
  }

  // ---------------------------------------------------------------------------
  // synthesize_questions

  /** The label that introduces the `i`-th set (0-based) in the combined text. */
  function SetLabel(i: nat): string
  {
    "Question Set " + NatToString(i + 1) + ":\n"
  }

  /** Each set rendered (by the serializer `render`) behind its label, in input order. */
  function QuestionSetBlocks(sets: seq<BrainstormQuestions>, render: BrainstormQuestions -> string): (blocks: seq<string>)
    ensures |blocks| == |sets|
  {
    seq(|sets|, i requires 0 <= i < |sets| => SetLabel(i) + render(sets[i]))
  }

  /** The text given to the question synthesizer: the blocks joined by blank lines. */
  function CombinedQuestionSets(sets: seq<BrainstormQuestions>, render: BrainstormQuestions -> string): string
  {
    Join("\n\n", QuestionSetBlocks(sets, render))
  }

  /**
   * The synthesized question set and the texts sent to the synthesizer. A
   * single set is returned as it is, with no agent call; any other number of
   * sets (none included) is combined and sent in one call.
   */
  function SynthesizeQuestions(sets: seq<BrainstormQuestions>, render: BrainstormQuestions -> string,
                               synthesize: string -> Result<BrainstormQuestions, string>)
    : (r: (Result<BrainstormQuestions, string>, seq<string>))
    ensures |sets| == 1 <==> r.1 == []
    ensures |sets| == 1 ==> r.0 == Success(sets[0])
    ensures |sets| != 1 ==> r.1 == [CombinedQuestionSets(sets, render)] && r.0 == synthesize(r.1[0])
  {
    if |sets| == 1 then (Success(sets[0]), [])
    else
      var combined := CombinedQuestionSets(sets, render);
      (synthesize(combined), [combined])
  }

  /** The combined text starts with the first set behind "Question Set 1:". */
  lemma CombinedStartsWithFirstSet(sets: seq<BrainstormQuestions>, render: BrainstormQuestions -> string)
    requires |sets| > 0
    ensures SetLabel(0) == "Question Set 1:\n"
    ensures SetLabel(0) + render(sets[0]) <= CombinedQuestionSets(sets, render)
  {
    assert NatToString(1) == "1";
  }

  /**
   * Adding a set at the end adds a blank line and that set, labelled with
   * the next number, after the text of the earlier sets: the sets are
   * enumerated in input order.
   */
  lemma CombinedSnoc(sets: seq<BrainstormQuestions>, s: BrainstormQuestions, render: BrainstormQuestions -> string)
    requires |sets| > 0
    ensures CombinedQuestionSets(sets + [s], render)
         == CombinedQuestionSets(sets, render) + "\n\n" + SetLabel(|sets|) + render(s)
  {
    var blocks := QuestionSetBlocks(sets, render);
    assert QuestionSetBlocks(sets + [s], render) == blocks + [SetLabel(|sets|) + render(s)];
    JoinSnoc("\n\n", blocks, SetLabel(|sets|) + render(s));
  }

  /** No two sets carry the same label. */
  lemma SetLabelsDistinct(i: nat, j: nat)
    requires i != j
    ensures SetLabel(i) != SetLabel(j)
  {
    NatToStringInjective(i + 1, j + 1);
    var a, b := NatToString(i + 1), NatToString(j + 1);
    var prefix := "Question Set ";
    if |a| == |b| {
      assert SetLabel(i)[|prefix|..|prefix| + |a|] == a;
      assert SetLabel(j)[|prefix|..|prefix| + |b|] == b;
    }
  }

  // ---------------------------------------------------------------------------
  // chunk_questions

  /** The chunk of one group: its heading and a copy of each question, in order. */
  function ChunkOf(group: BrainstormQuestionGroup): Chunk
  {
    Chunk(group.heading,
          seq(|group.questions|, j requires 0 <= j < |group.questions| =>
            ChunkQuestion(group.questions[j].shortSummary, group.questions[j].fullDescription)))
  }

  /** One chunk per group, in group order. */
  function Chunked(questions: BrainstormQuestions): seq<Chunk>
  {
    seq(|questions.questionGroups|, i requires 0 <= i < |questions.questionGroups| => ChunkOf(questions.questionGroups[i]))
  }

  /** The group a chunk stands for. */
  function GroupOf(chunk: Chunk): BrainstormQuestionGroup
  {
    BrainstormQuestionGroup(chunk.heading,
      seq(|chunk.questions|, j requires 0 <= j < |chunk.questions| =>
        BrainstormQuestion(chunk.questions[j].shortSummary, chunk.questions[j].fullDescription)))
  }

  /** Regrouping chunks into a question set, chunk by chunk. */
  function Regroup(chunks: seq<Chunk>): BrainstormQuestions
  {
    BrainstormQuestions(seq(|chunks|, i requires 0 <= i < |chunks| => GroupOf(chunks[i])))
  }

  /**
   * One chunk per group, in group order, headed by the group's heading; each
   * chunk copies its group's questions, field by field, in order.
   */
  lemma ChunkedShape(questions: BrainstormQuestions)
    ensures |Chunked(questions)| == |questions.questionGroups|
    ensures forall i :: 0 <= i < |Chunked(questions)| ==>
      var chunk, group := Chunked(questions)[i], questions.questionGroups[i];
      && chunk.heading == group.heading
      && |chunk.questions| == |group.questions|
      && forall j :: 0 <= j < |chunk.questions| ==>
           && chunk.questions[j].shortSummary == group.questions[j].shortSummary
           && chunk.questions[j].fullDescription == group.questions[j].fullDescription
  {
  }

  /** Regrouping the chunks gives back the question set. */
  lemma RegroupChunked(questions: BrainstormQuestions)
    ensures Regroup(Chunked(questions)) == questions
  {
    var groups := questions.questionGroups;
    var back := Regroup(Chunked(questions)).questionGroups;
    forall i | 0 <= i < |groups|
      ensures back[i] == groups[i]
    {
      assert GroupOf(ChunkOf(groups[i])).questions == groups[i].questions;
    }
    assert back == groups;
  }

  /** Chunking a regrouped list of chunks gives back the chunks. */
  lemma ChunkedRegroup(chunks: seq<Chunk>)
    ensures Chunked(Regroup(chunks)) == chunks
  {
    var back := Chunked(Regroup(chunks));
    forall i | 0 <= i < |chunks|
      ensures back[i] == chunks[i]
    {
      assert ChunkOf(GroupOf(chunks[i])).questions == chunks[i].questions;
    }
    assert back == chunks;
  }

  /** Chunking calls no agent: it is a function of the question set alone. */
  method ChunkQuestions(questions: BrainstormQuestions) returns (chunks: seq<Chunk>)
    ensures chunks == Chunked(questions)
    ensures Regroup(chunks) == questions
  {
    var groups := questions.questionGroups;
    chunks := [];
    for i := 0 to |groups|
      invariant chunks == Chunked(questions)[..i]
    {
      var group := groups[i];
      var items: seq<ChunkQuestion> := [];
      for j := 0 to |group.questions|
        invariant items == ChunkOf(group).questions[..j]
      {
        var question := group.questions[j];
        items := items + [ChunkQuestion(question.shortSummary, question.fullDescription)];
      }
      assert items == ChunkOf(group).questions;
      assert Chunked(questions)[..i + 1] == Chunked(questions)[..i] + [ChunkOf(group)];
      chunks := chunks + [Chunk(group.heading, items)];
    }
    RegroupChunked(questions);
  }

  // ---------------------------------------------------------------------------
  // brainstorm_responses

  /**
   * What one brainstorming prompt embeds: the participant (0-based; the
   * prompt names it `participant + 1`), the context text, the chunk's heading
   * as the topic and the chunk's questions.
   */
  datatype BrainstormRequest = BrainstormRequest(participant: nat, context: string, topic: string, questions: seq<ChunkQuestion>)

  /** The requests of one participant: one per chunk, in chunk order. */
  function ParticipantRequests(context: BrainstormingContext, chunks: seq<Chunk>, participant: nat): (rs: seq<BrainstormRequest>)
    ensures |rs| == |chunks|
  {
    seq(|chunks|, c requires 0 <= c < |chunks| =>
      BrainstormRequest(participant, context.context, chunks[c].heading, chunks[c].questions))
  }

  /** The requests of every participant, participant by participant. */
  function BrainstormPlan(context: BrainstormingContext, chunks: seq<Chunk>, participantCount: int): seq<seq<BrainstormRequest>>
  {
    seq(Rounds(participantCount), p requires 0 <= p => ParticipantRequests(context, chunks, p))
  }

  /** Exactly one agent call per participant and chunk. */
  lemma BrainstormPlanSize(context: BrainstormingContext, chunks: seq<Chunk>, participantCount: int)
    ensures |Flatten(BrainstormPlan(context, chunks, participantCount))| == Rounds(participantCount) * |chunks|
  {
    var plan := BrainstormPlan(context, chunks, participantCount);
    FlattenLength(plan);
    TotalLengthUniform(plan, |chunks|);
  }

  function ValueOr<T>(r: Result<seq<T>, string>): seq<T>
  {
    if r.Success? then r.value else []
  }

  /** The agent's answers for each chunk of one participant, in chunk order. */
  function ChunkOutputs(context: BrainstormingContext, chunks: seq<Chunk>, participant: nat,
                        answer: BrainstormRequest -> Result<seq<BrainstormResponse>, string>): (outputs: seq<seq<BrainstormResponse>>)
    ensures |outputs| == |chunks|
  {
    var requests := ParticipantRequests(context, chunks, participant);
    seq(|chunks|, c requires 0 <= c < |chunks| => ValueOr(answer(requests[c])))
  }

  /** A participant's responses: the per-chunk answers concatenated in chunk order. */
  function ParticipantResponses(context: BrainstormingContext, chunks: seq<Chunk>, participant: nat,
                                answer: BrainstormRequest -> Result<seq<BrainstormResponse>, string>): seq<BrainstormResponse>
  {
    Flatten(ChunkOutputs(context, chunks, participant, answer))
  }

  /** The number of questions over all chunks. */
  function TotalQuestions(chunks: seq<Chunk>): nat
  {
    TotalLength(seq(|chunks|, c requires 0 <= c < |chunks| => chunks[c].questions))
  }

  /**
   * When the agent answers each of a participant's chunks with one response
   * per question, that participant has exactly one response per question of
   * the whole question set.
   */
  lemma OneResponsePerQuestion(context: BrainstormingContext, chunks: seq<Chunk>, participant: nat,
                               answer: BrainstormRequest -> Result<seq<BrainstormResponse>, string>)
    requires forall c :: 0 <= c < |chunks| ==>
      var r := answer(ParticipantRequests(context, chunks, participant)[c]);
      r.Success? && |r.value| == |chunks[c].questions|
    ensures |ParticipantResponses(context, chunks, participant, answer)| == TotalQuestions(chunks)
  {
    var outputs := ChunkOutputs(context, chunks, participant, answer);
    FlattenLength(outputs);
    TotalLengthPointwise(outputs, seq(|chunks|, c requires 0 <= c < |chunks| => chunks[c].questions));
  }

  /** The inner loop of brainstorm_responses: one agent call per chunk, in chunk order. */
  method RunParticipant(context: BrainstormingContext, chunks: seq<Chunk>, participant: nat,
                        answer: BrainstormRequest -> Result<seq<BrainstormResponse>, string>)
    returns (outcome: Result<seq<BrainstormResponse>, string>, calls: seq<BrainstormRequest>)
    ensures RanUntilFailure(answer, ParticipantRequests(context, chunks, participant), calls, outcome.Failure?)
    ensures outcome.Failure? ==> calls != [] && answer(calls[|calls| - 1]) == Failure(outcome.error)
    ensures outcome.Success? ==> outcome.value == ParticipantResponses(context, chunks, participant, answer)
  {
    var requests := ParticipantRequests(context, chunks, participant);
    ghost var outputs := ChunkOutputs(context, chunks, participant, answer);
    var responses: seq<BrainstormResponse> := [];
    calls := [];
    for c := 0 to |chunks|
      invariant calls == requests[..c]
      invariant forall i :: 0 <= i < c ==> answer(calls[i]).Success?
      invariant responses == Flatten(outputs[..c])
    {
      var request := BrainstormRequest(participant, context.context, chunks[c].heading, chunks[c].questions);
      calls := calls + [request];
      var result := answer(request);
      if result.Failure? {
        outcome := Failure(result.error);
        return;
      }
      assert outputs[..c + 1][..c] == outputs[..c];
      responses := responses + result.value;
    }
    assert outputs[..|chunks|] == outputs;
    outcome := Success(responses);
  }

  method BrainstormResponses(context: BrainstormingContext, chunks: seq<Chunk>, participantCount: int,
                             answer: BrainstormRequest -> Result<seq<BrainstormResponse>, string>)
    returns (outcome: Result<seq<seq<BrainstormResponse>>, string>, calls: seq<BrainstormRequest>)
    ensures RanUntilFailure(answer, Flatten(BrainstormPlan(context, chunks, participantCount)), calls, outcome.Failure?)
    ensures outcome.Failure? ==> calls != [] && answer(calls[|calls| - 1]) == Failure(outcome.error)
    ensures outcome.Success? ==> |outcome.value| == Rounds(participantCount)
    ensures outcome.Success? ==> forall p :: 0 <= p < |outcome.value| ==>
      outcome.value[p] == ParticipantResponses(context, chunks, p, answer)
  {
    var plan := BrainstormPlan(context, chunks, participantCount);
    var all: seq<seq<BrainstormResponse>> := [];
    calls := [];
    for p := 0 to Rounds(participantCount)
      invariant calls == Flatten(plan[..p])
      invariant forall i :: 0 <= i < |calls| ==> answer(calls[i]).Success?
      invariant |all| == p
      invariant forall q :: 0 <= q < p ==> all[q] == ParticipantResponses(context, chunks, q, answer)
    {
      var result, made := RunParticipant(context, chunks, p, answer);
      if result.Failure? {
        FlattenPrefix(plan, p, |made|);
        calls := calls + made;
        outcome := Failure(result.error);
        return;
      }
      assert plan[..p + 1][..p] == plan[..p];
      calls := calls + made;
      all := all + [result.value];
    }
    assert plan[..Rounds(participantCount)] == plan;
    outcome := Success(all);
  }

  // ---------------------------------------------------------------------------
  // synthesize_responses

  /** One answer as a bullet line. */
  function AnswerLine(answer: string): string
  {
    "- " + answer + "\n"
  }

  function AnswerLineList(answers: seq<string>): (lines: seq<string>)
    ensures |lines| == |answers|
  {
    seq(|answers|, k requires 0 <= k < |answers| => AnswerLine(answers[k]))
  }

  function AnswerLines(answers: seq<string>): string
  {
    Flatten(AnswerLineList(answers))
  }

  /** One response: the question as a third-level heading, its answers as bullets, a closing blank line. */
  function ResponseBlock(response: BrainstormResponse): string
  {
    "### " + response.question + "\n\n" + AnswerLines(response.answers) + "\n"
  }

  function ResponseBlockList(responses: seq<BrainstormResponse>): (blocks: seq<string>)
    ensures |blocks| == |responses|
  {
    seq(|responses|, k requires 0 <= k < |responses| => ResponseBlock(responses[k]))
  }

  function ResponseBlocks(responses: seq<BrainstormResponse>): string
  {
    Flatten(ResponseBlockList(responses))
  }

  /** The heading of the `i`-th participant (0-based), numbered from 1. */
  function ParticipantHeader(i: nat): string
  {
    "## Participant " + NatToString(i + 1) + " Responses\n\n"
  }

  function ParticipantBlock(i: nat, responses: seq<BrainstormResponse>): string
  {
    ParticipantHeader(i) + ResponseBlocks(responses)
  }

  /** The text of participants `first`, `first + 1`, ...: their blocks joined by blank lines. */
  function ResponsesTextFrom(all: seq<seq<BrainstormResponse>>, first: nat): string
  {
    Join("\n\n", ParticipantBlockList(all, first))
  }

  function ParticipantBlockList(all: seq<seq<BrainstormResponse>>, first: nat): (blocks: seq<string>)
    ensures |blocks| == |all|
  {
    seq(|all|, i requires 0 <= i < |all| => ParticipantBlock(first + i, all[i]))
  }

  /** The text given to the final synthesizer. */
  function ResponsesText(all: seq<seq<BrainstormResponse>>): string
  {
    ResponsesTextFrom(all, 0)
  }

  /** The `+=` steps that add one response to a participant's text. */
  method AppendResponse(text: string, response: BrainstormResponse) returns (extended: string)
    ensures extended == text + ResponseBlock(response)
  {
    ghost var lines := AnswerLineList(response.answers);
    extended := text + "### " + response.question + "\n\n";
    for j := 0 to |response.answers|
      invariant extended == text + "### " + response.question + "\n\n" + Flatten(lines[..j])
    {
      assert lines[..j + 1][..j] == lines[..j];
      extended := extended + "- " + response.answers[j] + "\n";
    }
    assert lines[..|response.answers|] == lines;
    extended := extended + "\n";
  }

  /** The inner loops of synthesize_responses: one participant's heading and responses. */
  method ParticipantText(i: nat, responses: seq<BrainstormResponse>) returns (text: string)
    ensures text == ParticipantBlock(i, responses)
  {
    ghost var blocks := ResponseBlockList(responses);
    var body := "";
    for k := 0 to |responses|
      invariant body == Flatten(blocks[..k])
    {
      FlattenSnoc(blocks, k);
      body := AppendResponse(body, responses[k]);
    }
    assert blocks[..|responses|] == blocks;
    text := ParticipantHeader(i) + body;
  }

  method SynthesizeResponses(all: seq<seq<BrainstormResponse>>,
                             synthesize: string -> Result<BrainstormSynthesis, string>)
    returns (outcome: Result<BrainstormSynthesis, string>, request: string)
    ensures request == ResponsesText(all)
    ensures outcome == synthesize(request)
  {
    var formatted: seq<string> := [];
    for i := 0 to |all|
      invariant formatted == ParticipantBlockList(all, 0)[..i]
    {
      var text := ParticipantText(i, all[i]);
      formatted := formatted + [text];
    }
    assert formatted == ParticipantBlockList(all, 0);
    request := Join("\n\n", formatted);
    outcome := synthesize(request);
  }
}
