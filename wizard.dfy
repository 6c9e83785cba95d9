/**
 * The logic of the step wizard of frontend/app/app.py that does not touch
 * the session: where the navigation buttons lead, and the loops of step 6
 * (human participation) and step 7 (showing the responses by topic). The
 * session itself is the class of module App.
 */
module Wizard {
  import opened Models
  import opened Seqs
  import opened Text
  import opened Symphony

  // ---------------------------------------------------------------------------
  // Navigation

  /**
   * The step the forward button of `step` leads to: 4 skips question
   * synthesis when a single model generated the questions, and 4 and 5 skip
   * human participation when the human does not take part.
   */
  function ForwardStep(step: int, singleModel: bool, includeHuman: bool): (next: int)
    requires 1 <= step <= 7
    ensures step < next <= 8
    ensures step != 4 && step != 5 ==> next == step + 1
    ensures step == 4 ==> (next == 5 <==> !singleModel)
    ensures step == 5 ==> next in {6, 7}
    ensures step in {4, 5} && next != 5 ==> next in {6, 7} && (next == 6 <==> includeHuman)
  {
    if step == 4 && singleModel then (if includeHuman then 6 else 7)
    else if step == 5 then (if includeHuman then 6 else 7)
    else step + 1
  }

  /** The step the back button of `step` leads to. */
  function BackStep(step: int, includeHuman: bool): (previous: int)
    requires 2 <= step <= 8
    ensures 1 <= previous < step
    ensures step == 7 ==> previous in {5, 6} && (previous == 6 <==> includeHuman)
    ensures step == 6 ==> previous == 5
    ensures step != 6 && step != 7 ==> previous == step - 1
  {
    if step == 7 then (if includeHuman then 6 else 5)
    else if step == 6 then 5
    else step - 1
  }

  /**
   * Back undoes forward, from every step and with every setting a session
   * can be in at that step (step 6 is only reached with a participating
   * human), except from step 4 with a single model.
   */
  lemma BackUndoesForward(step: int, singleModel: bool, includeHuman: bool)
    requires 1 <= step <= 7
    requires step == 6 ==> includeHuman
    requires step == 4 ==> !singleModel
    ensures BackStep(ForwardStep(step, singleModel, includeHuman), includeHuman) == step
  {
  }

  /**
   * With a single model, forward from step 4 skips step 5, yet back from the
   * step it reaches goes to step 5.
   */
  lemma SingleModelBackLandsOnSkippedStep(includeHuman: bool)
    ensures ForwardStep(4, true, includeHuman) != 5
    ensures BackStep(ForwardStep(4, true, includeHuman), includeHuman) == 5
  {
  }

  // ---------------------------------------------------------------------------
  // Human participation (step 6)

  /** `[a for a in answers if a.strip()]`. */
  function KeepNonBlank(answers: seq<string>): (kept: seq<string>)
    ensures |kept| <= |answers|
    ensures forall k :: 0 <= k < |kept| ==> kept[k] in answers && !IsBlank(kept[k])
  {
    if answers == [] then []
    else (if IsBlank(answers[0]) then [] else [answers[0]]) + KeepNonBlank(answers[1..])
  }

  /** In the terms of the source: every kept answer has a non-empty `strip()`. */
  lemma KeepNonBlankStripped(answers: seq<string>)
    ensures forall k :: 0 <= k < |KeepNonBlank(answers)| ==> Strip(KeepNonBlank(answers)[k]) != ""
  {
    var kept := KeepNonBlank(answers);
    forall k | 0 <= k < |kept|
      ensures Strip(kept[k]) != ""
    {
      assert !IsBlank(kept[k]);
    }
  }

  /** Every answer that is not blank is kept. */
  lemma {:induction false} KeepNonBlankKeeps(answers: seq<string>, a: string)
    requires a in answers && !IsBlank(a)
    ensures a in KeepNonBlank(answers)
  {
    if answers[0] != a {
      KeepNonBlankKeeps(answers[1..], a);
    }
  }

  /** Nothing is kept of answers that are all blank. */
  lemma {:induction false} KeepNonBlankOfBlank(answers: seq<string>)
    requires forall a :: a in answers ==> IsBlank(a)
    ensures KeepNonBlank(answers) == []
  {
    if answers != [] {
      assert answers[0] in answers;
      KeepNonBlankOfBlank(answers[1..]);
    }
  }

  lemma {:induction false} KeepNonBlankIdempotent(answers: seq<string>)
    ensures KeepNonBlank(KeepNonBlank(answers)) == KeepNonBlank(answers)
  {
    if answers != [] {
      var rest := KeepNonBlank(answers[1..]);
      KeepNonBlankIdempotent(answers[1..]);
      if !IsBlank(answers[0]) {
        var kept := [answers[0]] + rest;
        assert KeepNonBlank(answers) == kept;
        assert kept[0] == answers[0] && kept[1..] == rest;
        assert KeepNonBlank(kept) == [kept[0]] + KeepNonBlank(kept[1..]);
      } else {
        assert KeepNonBlank(answers) == rest;
      }
    }
  }

  /** A single answer is kept exactly when it is not blank. */
  lemma KeepNonBlankSingle(a: string)
    ensures KeepNonBlank([a]) == if IsBlank(a) then [] else [a]
  {
    assert [a][1..] == [];
  }

  /**
   * Filtering a concatenation filters each part and keeps them in order; with
   * `KeepNonBlankSingle` this pins the order and the repeats of what is kept.
   */
  lemma {:induction false} KeepNonBlankAppend(xs: seq<string>, ys: seq<string>)
    ensures KeepNonBlank(xs + ys) == KeepNonBlank(xs) + KeepNonBlank(ys)
  {
    if xs == [] {
      assert xs + ys == ys;
    } else {
      assert (xs + ys)[0] == xs[0];
      assert (xs + ys)[1..] == xs[1..] + ys;
      KeepNonBlankAppend(xs[1..], ys);
    }
  }

  /** The responses the human gives when every question gets its one empty answer. */
  function InitialHumanResponses(chunks: seq<Chunk>): seq<BrainstormResponse>
  {
    Flatten(InitialRows(chunks))
  }

  function InitialRows(chunks: seq<Chunk>): (rows: seq<seq<BrainstormResponse>>)
    ensures |rows| == |chunks|
  {
    seq(|chunks|, i requires 0 <= i < |chunks| => InitialChunkResponses(chunks[i]))
  }

  function InitialChunkResponses(chunk: Chunk): (responses: seq<BrainstormResponse>)
    ensures |responses| == |chunk.questions|
  {
    seq(|chunk.questions|, j requires 0 <= j < |chunk.questions| =>
      BrainstormResponse(chunk.questions[j].shortSummary, [""]))
  }

  lemma InitialHumanResponsesLength(chunks: seq<Chunk>)
    ensures |InitialHumanResponses(chunks)| == TotalQuestions(chunks)
  {
    var rows := InitialRows(chunks);
    var questions := seq(|chunks|, c requires 0 <= c < |chunks| => chunks[c].questions);
    FlattenLength(rows);
    TotalLengthPointwise(rows, questions);
  }

  /**
   * The initial human responses hold one entry per question, in chunk then
   * question order: the `j`-th question of chunk `i` is entry
   * `TotalQuestions(chunks[..i]) + j`, keyed by its short summary, with the
   * single answer "".
   */
  lemma InitialHumanResponsesOrder(chunks: seq<Chunk>, i: nat, j: nat)
    requires i < |chunks| && j < |chunks[i].questions|
    ensures |InitialHumanResponses(chunks)| == TotalQuestions(chunks)
    ensures TotalQuestions(chunks[..i]) + j < |InitialHumanResponses(chunks)|
    ensures InitialHumanResponses(chunks)[TotalQuestions(chunks[..i]) + j]
         == BrainstormResponse(chunks[i].questions[j].shortSummary, [""])
  {
    var rows := InitialRows(chunks);
    var questions := seq(|chunks|, c requires 0 <= c < |chunks| => chunks[c].questions);
    FlattenLength(rows);
    TotalLengthPointwise(rows, questions);
    var prefix := seq(i, c requires 0 <= c < i => chunks[..i][c].questions);
    TotalLengthPointwise(rows[..i], prefix);
    FlattenAt(rows, i, j);
  }

  lemma InitialHumanResponsesAnswers(chunks: seq<Chunk>)
    ensures forall k :: 0 <= k < |InitialHumanResponses(chunks)| ==> InitialHumanResponses(chunks)[k].answers == [""]
  {
    var rows := InitialRows(chunks);
    FlattenAll(rows, (r: BrainstormResponse) => r.answers == [""]);
  }

  lemma {:induction false} FlattenAll<T>(xss: seq<seq<T>>, p: T -> bool)
    requires forall i, j :: 0 <= i < |xss| && 0 <= j < |xss[i]| ==> p(xss[i][j])
    ensures forall k :: 0 <= k < |Flatten(xss)| ==> p(Flatten(xss)[k])
  {
    if xss != [] {
      FlattenAll(xss[..|xss| - 1], p);
    }
  }

  /** The first response keyed by `summary`: the `next(...)` search of step 6. */
  function FindResponse(responses: seq<BrainstormResponse>, summary: string): (index: Option<nat>)
    ensures index.Some? ==> index.value < |responses| && responses[index.value].question == summary
    ensures index.Some? ==> forall k :: 0 <= k < index.value ==> responses[k].question != summary
    ensures index.None? <==> forall k :: 0 <= k < |responses| ==> responses[k].question != summary
  {
    if responses == [] then None
    else if responses[0].question == summary then Some(0)
    else match FindResponse(responses[1..], summary)
         case None => None
         case Some(k) => Some(k + 1)
  }

  /**
   * The answers a run reads for one question: one text area per stored
   * answer, whose value is `entered(i, j, k)` (the widget
   * `human_answer_{i}_{j}_{k}`), and one more "" when the add button of the
   * question was clicked.
   */
  function ReadAnswers(i: nat, j: nat, stored: seq<string>, entered: (nat, nat, nat) -> string, added: (nat, nat) -> bool)
    : (answers: seq<string>)
    ensures |answers| == |stored| + (if added(i, j) then 1 else 0)
  {
    seq(|stored|, k requires 0 <= k < |stored| => entered(i, j, k)) + (if added(i, j) then [""] else [])
  }

  /** The updated response of question `j` of chunk `i`, when a response is stored under its summary. */
  function QuestionUpdate(i: nat, j: nat, question: ChunkQuestion, stored: seq<BrainstormResponse>,
                          entered: (nat, nat, nat) -> string, added: (nat, nat) -> bool): (update: seq<BrainstormResponse>)
    ensures |update| <= 1
  {
    match FindResponse(stored, question.shortSummary)
    case None => []
    case Some(k) =>
      [BrainstormResponse(question.shortSummary, KeepNonBlank(ReadAnswers(i, j, stored[k].answers, entered, added)))]
  }

  function ChunkUpdates(i: nat, chunk: Chunk, stored: seq<BrainstormResponse>,
                        entered: (nat, nat, nat) -> string, added: (nat, nat) -> bool): (updates: seq<seq<BrainstormResponse>>)
    ensures |updates| == |chunk.questions|
  {
    seq(|chunk.questions|, j requires 0 <= j < |chunk.questions| =>
      QuestionUpdate(i, j, chunk.questions[j], stored, entered, added))
  }

  function ChunkUpdateList(chunks: seq<Chunk>, stored: seq<BrainstormResponse>,
                           entered: (nat, nat, nat) -> string, added: (nat, nat) -> bool): (updates: seq<seq<BrainstormResponse>>)
    ensures |updates| == |chunks|
  {
    seq(|chunks|, i requires 0 <= i < |chunks| => Flatten(ChunkUpdates(i, chunks[i], stored, entered, added)))
  }

  /** The `updated_responses` of a step-6 run: one per question that has a stored response, in chunk then question order. */
  function HumanAnswerUpdates(chunks: seq<Chunk>, stored: seq<BrainstormResponse>,
                              entered: (nat, nat, nat) -> string, added: (nat, nat) -> bool): seq<BrainstormResponse>
  {
    Flatten(ChunkUpdateList(chunks, stored, entered, added))
  }

  /** Every update keeps non-blank answers only. */
  lemma HumanAnswerUpdatesNonBlank(chunks: seq<Chunk>, stored: seq<BrainstormResponse>,
                                   entered: (nat, nat, nat) -> string, added: (nat, nat) -> bool)
    ensures forall k :: 0 <= k < |HumanAnswerUpdates(chunks, stored, entered, added)| ==>
      forall a :: a in HumanAnswerUpdates(chunks, stored, entered, added)[k].answers ==> !IsBlank(a)
  {
    var p := (r: BrainstormResponse) => forall a :: a in r.answers ==> !IsBlank(a);
    var rows := ChunkUpdateList(chunks, stored, entered, added);
    forall i | 0 <= i < |rows|
      ensures forall k :: 0 <= k < |rows[i]| ==> p(rows[i][k])
    {
      FlattenAll(ChunkUpdates(i, chunks[i], stored, entered, added), p);
    }
    FlattenAll(rows, p);
  }

  /**
   * When every answer a run reads is blank, every updated response has no
   * answer left.
   */
  lemma HumanAnswerUpdatesEmpty(chunks: seq<Chunk>, stored: seq<BrainstormResponse>,
                                entered: (nat, nat, nat) -> string, added: (nat, nat) -> bool)
    requires forall i, j, k :: 0 <= i < |chunks| && 0 <= j < |chunks[i].questions| && 0 <= k < |stored| ==>
      forall a :: a in ReadAnswers(i, j, stored[k].answers, entered, added) ==> IsBlank(a)
    ensures forall k :: 0 <= k < |HumanAnswerUpdates(chunks, stored, entered, added)| ==>
      HumanAnswerUpdates(chunks, stored, entered, added)[k].answers == []
  {
    var p := (r: BrainstormResponse) => r.answers == [];
    var rows := ChunkUpdateList(chunks, stored, entered, added);
    forall i | 0 <= i < |rows|
      ensures forall k :: 0 <= k < |rows[i]| ==> p(rows[i][k])
    {
      var updates := ChunkUpdates(i, chunks[i], stored, entered, added);
      forall j, m | 0 <= j < |updates| && 0 <= m < |updates[j]|
        ensures p(updates[j][m])
      {
        var k := FindResponse(stored, chunks[i].questions[j].shortSummary).value;
        KeepNonBlankOfBlank(ReadAnswers(i, j, stored[k].answers, entered, added));
      }
      FlattenAll(updates, p);
    }
    FlattenAll(rows, p);
  }

  /**
   * A run of step 6 leaves every updated response without answers when each
   * stored response holds at most one answer and, unless none holds any, every
   * first text area holds its default "".
   */
  lemma StepSixLeavesNoAnswer(chunks: seq<Chunk>, stored: seq<BrainstormResponse>,
                              entered: (nat, nat, nat) -> string, added: (nat, nat) -> bool)
    requires forall k :: 0 <= k < |stored| ==> |stored[k].answers| <= 1
    requires (forall k :: 0 <= k < |stored| ==> stored[k].answers == []) || (forall i, j :: entered(i, j, 0) == "")
    ensures forall k :: 0 <= k < |HumanAnswerUpdates(chunks, stored, entered, added)| ==>
      HumanAnswerUpdates(chunks, stored, entered, added)[k].answers == []
  {
    forall i, j, k | 0 <= i < |chunks| && 0 <= j < |chunks[i].questions| && 0 <= k < |stored|
      ensures forall a :: a in ReadAnswers(i, j, stored[k].answers, entered, added) ==> IsBlank(a)
    {
      var read := ReadAnswers(i, j, stored[k].answers, entered, added);
      forall a | a in read
        ensures IsBlank(a)
      {
        var m :| 0 <= m < |read| && read[m] == a;
        if m < |stored[k].answers| {
          assert m == 0 && a == entered(i, j, 0);
        }
      }
    }
    HumanAnswerUpdatesEmpty(chunks, stored, entered, added);
  }

  /**
   * On the run that creates the initial responses every question finds its
   * own entry, so the run updates as many responses as it created.
   */
  lemma InitialRunUpdatesAll(chunks: seq<Chunk>, entered: (nat, nat, nat) -> string, added: (nat, nat) -> bool)
    ensures |HumanAnswerUpdates(chunks, InitialHumanResponses(chunks), entered, added)| == |InitialHumanResponses(chunks)|
  {
    var stored := InitialHumanResponses(chunks);
    var rows := ChunkUpdateList(chunks, stored, entered, added);
    var questions := seq(|chunks|, c requires 0 <= c < |chunks| => chunks[c].questions);
    forall i | 0 <= i < |chunks|
      ensures |rows[i]| == |questions[i]|
    {
      var updates := ChunkUpdates(i, chunks[i], stored, entered, added);
      forall j | 0 <= j < |updates|
        ensures |updates[j]| == 1
      {
        InitialHumanResponsesOrder(chunks, i, j);
      }
      FlattenLength(updates);
      TotalLengthUniform(updates, 1);
    }
    FlattenLength(rows);
    TotalLengthPointwise(rows, questions);
    InitialHumanResponsesLength(chunks);
  }

  /** Creates one response with a single empty answer per question, chunk by chunk. */
  method BuildInitialHumanResponses(chunks: seq<Chunk>) returns (responses: seq<BrainstormResponse>)
    ensures responses == InitialHumanResponses(chunks)
  {
    responses := [];
    for i := 0 to |chunks|
      invariant responses == Flatten(InitialRows(chunks)[..i])
    {
      ghost var before := responses;
      var questions := chunks[i].questions;
      for j := 0 to |questions|
        invariant responses == before + InitialChunkResponses(chunks[i])[..j]
      {
        responses := responses + [BrainstormResponse(questions[j].shortSummary, [""])];
        assert InitialChunkResponses(chunks[i])[..j + 1] == InitialChunkResponses(chunks[i])[..j] + [InitialChunkResponses(chunks[i])[j]];
      }
      assert InitialChunkResponses(chunks[i])[..|questions|] == InitialChunkResponses(chunks[i]);
      assert InitialRows(chunks)[..i + 1][..i] == InitialRows(chunks)[..i];
    }
    assert InitialRows(chunks)[..|chunks|] == InitialRows(chunks);
  }

  /**
   * Reads the text areas of question `j` of chunk `i`, when a response is
   * stored under its summary, and keeps the answers that are not blank.
   */
  method ReadQuestion(i: nat, j: nat, question: ChunkQuestion, stored: seq<BrainstormResponse>,
                      entered: (nat, nat, nat) -> string, added: (nat, nat) -> bool)
    returns (update: seq<BrainstormResponse>)
    ensures update == QuestionUpdate(i, j, question, stored, entered, added)
  {
    update := [];
    var index := FindResponse(stored, question.shortSummary);
    if index.Some? {
      var current := stored[index.value].answers;
      var answers: seq<string> := [];
      for k := 0 to |current|
        invariant |answers| == k
        invariant forall m :: 0 <= m < k ==> answers[m] == entered(i, j, m)
      {
        answers := answers + [entered(i, j, k)];
      }
      if added(i, j) {
        answers := answers + [""];
      }
      assert answers == ReadAnswers(i, j, current, entered, added);
      update := [BrainstormResponse(question.shortSummary, KeepNonBlank(answers))];
    }
  }

  /** Reads the text areas of the questions of chunk `i`, in question order. */
  method ReadChunk(i: nat, chunk: Chunk, stored: seq<BrainstormResponse>,
                   entered: (nat, nat, nat) -> string, added: (nat, nat) -> bool)
    returns (updated: seq<BrainstormResponse>)
    ensures updated == Flatten(ChunkUpdates(i, chunk, stored, entered, added))
  {
    ghost var updates := ChunkUpdates(i, chunk, stored, entered, added);
    updated := [];
    for j := 0 to |chunk.questions|
      invariant updated == Flatten(updates[..j])
    {
      var update := ReadQuestion(i, j, chunk.questions[j], stored, entered, added);
      updated := updated + update;
      assert updates[..j + 1][..j] == updates[..j];
    }
    assert updates[..|chunk.questions|] == updates;
  }

  /**
   * Reads the text areas of every question that has a stored response and
   * collects the updated responses, as one run of step 6 does.
   */
  method CollectHumanAnswers(chunks: seq<Chunk>, stored: seq<BrainstormResponse>,
                             entered: (nat, nat, nat) -> string, added: (nat, nat) -> bool)
    returns (updated: seq<BrainstormResponse>)
    ensures updated == HumanAnswerUpdates(chunks, stored, entered, added)
  {
    ghost var rows := ChunkUpdateList(chunks, stored, entered, added);
    updated := [];
    for i := 0 to |chunks|
      invariant updated == Flatten(rows[..i])
    {
      var update := ReadChunk(i, chunks[i], stored, entered, added);
      updated := updated + update;
      assert rows[..i + 1][..i] == rows[..i];
    }
    assert rows[..|chunks|] == rows;
  }

  /** The `j`-th question of `chunk` has short summary `question`. */
  predicate Mentions(chunk: Chunk, question: string)
  {
    exists j :: 0 <= j < |chunk.questions| && chunk.questions[j].shortSummary == question
  }

  /**
   * The first chunk that lists `question` under a non-empty heading, or
   * `|chunks|` when there is none.
   */
  function FirstTitled(chunks: seq<Chunk>, question: string): (i: nat)
    ensures i <= |chunks|
    ensures i < |chunks| ==> Mentions(chunks[i], question) && chunks[i].heading != ""
    ensures forall k :: 0 <= k < i ==> !Mentions(chunks[k], question) || chunks[k].heading == ""
  {
    if chunks == [] then 0
    else if Mentions(chunks[0], question) && chunks[0].heading != "" then 0
    else 1 + FirstTitled(chunks[1..], question)
  }

  /**
   * The topic step 7 shows above a response: the heading of a chunk that
   * lists the question. The search stops at the first such chunk whose
   * heading is not empty, so a chunk with an empty heading does not end it;
   * the result is the empty heading only when every chunk that lists the
   * question has one.
   */
  method FindTopic(chunks: seq<Chunk>, question: string) returns (topic: Option<string>)
    ensures topic.None? <==> forall i :: 0 <= i < |chunks| ==> !Mentions(chunks[i], question)
    ensures FirstTitled(chunks, question) < |chunks| ==> topic == Some(chunks[FirstTitled(chunks, question)].heading)
    ensures FirstTitled(chunks, question) == |chunks| ==> topic.None? || topic == Some("")
  {
    topic := None;
    var i := 0;
    var done := false;
    while i < |chunks| && !done
      invariant 0 <= i <= |chunks|
      invariant topic.None? <==> forall c :: 0 <= c < i ==> !Mentions(chunks[c], question)
      invariant done <==> topic.Some? && topic.value != ""
      invariant done ==> i > 0 && FirstTitled(chunks, question) == i - 1 && topic == Some(chunks[i - 1].heading)
      invariant !done ==> FirstTitled(chunks, question) >= i
      decreases |chunks| - i
    {
      var questions := chunks[i].questions;
      var found := false;
      var j := 0;
      while j < |questions| && !found
        invariant 0 <= j <= |questions|
        invariant found ==> j > 0 && questions[j - 1].shortSummary == question
        invariant !found ==> forall m :: 0 <= m < j ==> questions[m].shortSummary != question
        decreases |questions| - j, if found then 0 else 1
      {
        if questions[j].shortSummary == question {
          found := true;
        }
        j := j + 1;
      }
      assert found <==> Mentions(chunks[i], question);
      if found {
        topic := Some(chunks[i].heading);
      }
      done := topic.Some? && topic.value != "";
      i := i + 1;
    }
  }

  /** `response["answers"] and any(a.strip() for a in response["answers"])`. */
  predicate HasContent(response: BrainstormResponse)
  {
    |response.answers| > 0 && exists m :: 0 <= m < |response.answers| && !IsBlank(response.answers[m])
  }

  /** A response with its blank answers dropped. */
  function Cleaned(response: BrainstormResponse): BrainstormResponse
  {
    BrainstormResponse(response.question, KeepNonBlank(response.answers))
  }

  lemma CleanedNotEmpty(response: BrainstormResponse)
    requires HasContent(response)
    ensures Cleaned(response).answers != []
  {
    var m :| 0 <= m < |response.answers| && !IsBlank(response.answers[m]);
    KeepNonBlankKeeps(response.answers, response.answers[m]);
  }

  /**
   * What the human submits on leaving step 6: each response that has an
   * answer which is not blank, in order, with its blank answers dropped.
   */
  function SubmittedResponses(responses: seq<BrainstormResponse>): (submitted: seq<BrainstormResponse>)
    ensures |submitted| <= |responses|
    ensures forall k :: 0 <= k < |submitted| ==> HasContent(submitted[k])
    ensures forall k, m :: 0 <= k < |submitted| && 0 <= m < |submitted[k].answers| ==> !IsBlank(submitted[k].answers[m])
  {
    if responses == [] then []
    else if HasContent(responses[0]) then
      CleanedNotEmpty(responses[0]);
      var first := Cleaned(responses[0]).answers;
      assert !IsBlank(first[0]);
      [Cleaned(responses[0])] + SubmittedResponses(responses[1..])
    else SubmittedResponses(responses[1..])
  }

  /** In the terms of the source: every submitted answer has a non-empty `strip()`. */
  lemma SubmittedResponsesStripped(responses: seq<BrainstormResponse>)
    ensures forall k, m :: 0 <= k < |SubmittedResponses(responses)| && 0 <= m < |SubmittedResponses(responses)[k].answers| ==>
      Strip(SubmittedResponses(responses)[k].answers[m]) != ""
  {
    var submitted := SubmittedResponses(responses);
    forall k, m | 0 <= k < |submitted| && 0 <= m < |submitted[k].answers|
      ensures Strip(submitted[k].answers[m]) != ""
    {
      assert !IsBlank(submitted[k].answers[m]);
    }
  }

  /** Every response with content is submitted, cleaned, and every submitted response comes from one. */
  lemma {:induction false} SubmittedResponsesMembers(responses: seq<BrainstormResponse>, r: BrainstormResponse)
    ensures r in SubmittedResponses(responses) <==> exists x :: x in responses && HasContent(x) && r == Cleaned(x)
  {
    if responses != [] {
      SubmittedResponsesMembers(responses[1..], r);
      if HasContent(responses[0]) && r == Cleaned(responses[0]) {
        assert r in SubmittedResponses(responses);
      }
      if exists x :: x in responses[1..] && HasContent(x) && r == Cleaned(x) {
        var x :| x in responses[1..] && HasContent(x) && r == Cleaned(x);
        assert x in responses;
      }
      if exists x :: x in responses && HasContent(x) && r == Cleaned(x) {
        var x :| x in responses && HasContent(x) && r == Cleaned(x);
        if x != responses[0] {
          assert x in responses[1..];
        }
      }
    }
  }

  /** Responses without any answer are never submitted. */
  lemma {:induction false} SubmittedResponsesOfUnanswered(responses: seq<BrainstormResponse>)
    requires forall k :: 0 <= k < |responses| ==> responses[k].answers == []
    ensures SubmittedResponses(responses) == []
  {
    if responses != [] {
      SubmittedResponsesOfUnanswered(responses[1..]);
    }
  }

  /** Submitting again changes nothing. */
  lemma {:induction false} SubmittedResponsesIdempotent(responses: seq<BrainstormResponse>)
    ensures SubmittedResponses(SubmittedResponses(responses)) == SubmittedResponses(responses)
  {
    if responses != [] {
      var rest := SubmittedResponses(responses[1..]);
      SubmittedResponsesIdempotent(responses[1..]);
      if HasContent(responses[0]) {
        var head := Cleaned(responses[0]);
        var submitted := [head] + rest;
        assert SubmittedResponses(responses) == submitted;
        assert submitted[0] == head && submitted[1..] == rest;
        assert HasContent(head);
        KeepNonBlankIdempotent(responses[0].answers);
        assert Cleaned(head) == head;
        assert SubmittedResponses(submitted) == [head] + SubmittedResponses(rest);
      } else {
        assert SubmittedResponses(responses) == rest;
      }
    }
  }

  /** A single response is submitted, cleaned, exactly when it has content. */
  lemma SubmittedResponsesSingle(r: BrainstormResponse)
    ensures SubmittedResponses([r]) == if HasContent(r) then [Cleaned(r)] else []
  {
    assert [r][1..] == [];
  }

  /**
   * Submitting a concatenation submits each part and keeps them in order; with
   * `SubmittedResponsesSingle` this pins the order and the repeats of what is
   * submitted.
   */
  lemma {:induction false} SubmittedResponsesAppend(xs: seq<BrainstormResponse>, ys: seq<BrainstormResponse>)
    ensures SubmittedResponses(xs + ys) == SubmittedResponses(xs) + SubmittedResponses(ys)
  {
    if xs == [] {
      assert xs + ys == ys;
    } else {
      assert (xs + ys)[0] == xs[0];
      assert (xs + ys)[1..] == xs[1..] + ys;
      SubmittedResponsesAppend(xs[1..], ys);
    }
  }
}
