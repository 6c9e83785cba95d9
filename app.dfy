/**
 * The session of the Streamlit wizard in frontend/app/app.py.
 *
 * Streamlit reruns the page script on every interaction. A run of step `k`
 * first does the step's work (fetching what is not stored yet, reading the
 * widgets) and then draws the navigation buttons; a click is seen by the next
 * run, which changes the session and reruns. Here a run of step `k` is one
 * `Render...` method, which may end early (a fault recorded by handle_error,
 * or an exception outside any try, which ends the script), and each button is
 * one method that can only be pressed when the latest run of its step drew it.
 * What a client call returned, or the message of what it raised, is a
 * parameter.
 */
module App {
  import opened Models
  import opened Seqs
  import opened Text
  import opened Symphony
  import opened Wizard

  /** What handle_error stores as the error to display. */
  datatype Fault =
    | ClientError(message: string)  // a client call raised; `message` is str(e)
    | MissingState(key: string)     // a TypeError from reading session value `key` while it is None

  /** How a run of a step ended. */
  datatype RunEnd =
    | Shown    // the run drew the step's navigation buttons
    | Stopped  // handle_error recorded a fault and the run returned
    | Crashed  // an exception outside any try ended the run

  /**
   * st.session_state: one field per key, `None` for a key that is absent or
   * holds None. `clientUsesMock` is the mode of the stored client.
   * `buttonsShown` records whether the latest run drew the navigation buttons
   * of the current step, the only way to press one.
   */
  class Session {
    var step: int
    var useMockData: bool
    var clientUsesMock: bool
    var ideaInput: Option<IdeaInput>
    var context: Option<BrainstormingContext>
    var modelCount: Option<int>
    var participantCount: Option<int>
    var includeHuman: Option<bool>
    var questionSets: Option<seq<BrainstormQuestions>>
    var synthesizedQuestions: Option<BrainstormQuestions>
    var questionChunks: Option<seq<Chunk>>
    var humanResponses: Option<seq<BrainstormResponse>>
    var humanBrainstormResponses: Option<seq<BrainstormResponse>>
    var allResponses: Option<seq<seq<BrainstormResponse>>>
    var finalSynthesis: Option<BrainstormSynthesis>
    var error: Option<Fault>
    ghost var buttonsShown: bool

    /**
     * What holds between runs, whatever the user clicks: the client follows
     * the toggle, the steps past 1 have an idea, the steps past 3 have
     * settings in the slider ranges, question synthesis is absent before
     * step 5, a single model never gets past step 4, step 6 is only reached
     * with a participating human, and (because step 6 drops blank answers on
     * its very first run) the human's responses hold no answer and the human
     * submits nothing.
     */
    ghost predicate Valid()
      reads this
    {
      && 1 <= step <= 8
      && clientUsesMock == useMockData
      && (step >= 2 ==> ideaInput.Some?)
      && (modelCount.Some? ==> 1 <= modelCount.value <= 3)
      && (participantCount.Some? ==> 2 <= participantCount.value <= 5)
      && (step >= 4 || (step == 3 && buttonsShown) ==> modelCount.Some? && participantCount.Some? && includeHuman.Some?)
      && (step <= 4 ==> synthesizedQuestions.None?)
      && (step >= 5 || (step == 4 && buttonsShown) ==> modelCount != Some(1))
      && (step == 6 ==> includeHuman == Some(true))
      && (step == 6 && buttonsShown ==> humanResponses.Some?)
      && (humanResponses.Some? ==> forall k :: 0 <= k < |humanResponses.value| ==> humanResponses.value[k].answers == [])
      && (humanBrainstormResponses.Some? ==> humanBrainstormResponses.value == [])
    }

    /** What initialize_session_state leaves in an empty session: step 1, live data, nothing else. */
    ghost predicate IsInitial()
      reads this
    {
      && step == 1 && !useMockData && !clientUsesMock
      && ideaInput.None? && context.None?
      && modelCount.None? && participantCount.None? && includeHuman.None?
      && questionSets.None? && synthesizedQuestions.None? && questionChunks.None?
      && humanResponses.None? && humanBrainstormResponses.None?
      && allResponses.None? && finalSynthesis.None? && error.None?
      && !buttonsShown
    }

    /** The error banner and its "Clear Error" button are drawn. */
    predicate ErrorShown()
      reads this
    {
      error.Some? && !(error.value.ClientError? && error.value.message == "")
    }

    /** initialize_session_state on an empty session. */
    constructor ()
      ensures Valid() && IsInitial()
    {
      step, useMockData, clientUsesMock := 1, false, false;
      ideaInput, context := None, None;
      modelCount, participantCount, includeHuman := None, None, None;
      questionSets, synthesizedQuestions, questionChunks := None, None, None;
      humanResponses, humanBrainstormResponses := None, None;
      allResponses, finalSynthesis, error := None, None, None;
      buttonsShown := false;
    }

    /** Deletes the values obtained from the service. */
    method ForgetServiceData()
      modifies this`context, this`questionSets, this`synthesizedQuestions,
               this`questionChunks, this`allResponses, this`finalSynthesis
      ensures context.None? && questionSets.None? && synthesizedQuestions.None?
      ensures questionChunks.None? && allResponses.None? && finalSynthesis.None?
    {
      context, questionSets, synthesizedQuestions := None, None, None;
      questionChunks, allResponses, finalSynthesis := None, None, None;
    }

    /** Deletes the settings of step 3 and what the human entered. */
    method ForgetParticipation()
      modifies this`modelCount, this`participantCount, this`includeHuman,
               this`humanResponses, this`humanBrainstormResponses
      ensures modelCount.None? && participantCount.None? && includeHuman.None?
      ensures humanResponses.None? && humanBrainstormResponses.None?
    {
      modelCount, participantCount, includeHuman := None, None, None;
      humanResponses, humanBrainstormResponses := None, None;
    }

    /**
     * The sidebar toggle: a change of mode replaces the client and deletes
     * everything obtained from the service, then reruns; the step stays.
     */
    method ToggleMockData(value: bool)
      requires Valid()
      modifies this`useMockData, this`clientUsesMock, this`context, this`questionSets, this`synthesizedQuestions,
               this`questionChunks, this`allResponses, this`finalSynthesis, this`buttonsShown
      ensures Valid()
      ensures value == old(useMockData) ==> unchanged(this)
      ensures value != old(useMockData) ==>
        && useMockData == value && clientUsesMock == value
        && context.None? && questionSets.None? && synthesizedQuestions.None?
        && questionChunks.None? && allResponses.None? && finalSynthesis.None?
        && !buttonsShown
    {
      if value != useMockData {
        useMockData := value;
        clientUsesMock := value;
        ForgetServiceData();
        buttonsShown := false;
      }
    }

    /** The "Clear Error" button. */
    method ClearError()
      requires Valid() && ErrorShown()
      modifies this`error, this`buttonsShown
      ensures Valid() && error.None? && !buttonsShown
    {
      error := None;
      buttonsShown := false;
    }

    /**
     * Step 1, "Start Brainstorming": stores the idea with the uploaded
     * document, if any; in mock mode the idea is the mock data's and the
     * document is dropped.
     */
    method SubmitIdea(ideaText: string, uploaded: Option<string>, mockIdeaText: string)
      requires Valid() && step == 1
      modifies this`ideaInput, this`step, this`buttonsShown
      ensures Valid() && step == 2 && !buttonsShown
      ensures ideaInput == Some(if useMockData then IdeaInput(mockIdeaText, None) else IdeaInput(ideaText, uploaded))
    {
      if useMockData {
        ideaInput := Some(IdeaInput(mockIdeaText, None));
      } else {
        ideaInput := Some(IdeaInput(ideaText, uploaded));
      }
      step := ForwardStep(1, false, false);
      buttonsShown := false;
    }

    /**
     * A run of step 2: creates the context unless one is stored, then puts
     * what the text area holds into it; `edited` is the text the user
     * changed it to, if any.
     */
    method RenderContext(created: Result<BrainstormingContext, string>, edited: Option<string>) returns (end: RunEnd)
      requires Valid() && step == 2
      modifies this`context, this`error, this`buttonsShown
      ensures Valid() && buttonsShown == (end == Shown)
      ensures old(context).None? && created.Failure? ==>
        end == Stopped && context.None? && error == Some(ClientError(created.error))
      ensures old(context).Some? || created.Success? ==>
        var current := if old(context).Some? then old(context).value else created.value;
        && end == Shown && error == old(error)
        && context == Some(if edited.Some? then BrainstormingContext(edited.value) else current)
    {
      if context.None? {
        if created.Failure? {
          error := Some(ClientError(created.error));
          buttonsShown := false;
          return Stopped;
        }
        context := Some(created.value);
      }
      if edited.Some? && edited.value != context.value.context {
        context := Some(BrainstormingContext(edited.value));
      }
      buttonsShown := true;
      end := Shown;
    }

    /** Step 2, "Back to Idea". */
    method BackToIdea()
      requires Valid() && step == 2 && buttonsShown
      modifies this`step, this`buttonsShown
      ensures Valid() && step == 1 && !buttonsShown
    {
      step := BackStep(2, false);
      buttonsShown := false;
    }

    /** Step 2, "Configure Brainstorming". */
    method ConfigureBrainstorming()
      requires Valid() && step == 2 && buttonsShown
      modifies this`step, this`buttonsShown
      ensures Valid() && step == 3 && !buttonsShown
    {
      step := ForwardStep(2, false, false);
      buttonsShown := false;
    }

    /**
     * A run of step 3 with the values of the two sliders and the checkbox:
     * stores the settings, and deletes the generated question sets when the
     * number of models changed. Showing the context fails when there is none.
     */
    method RenderSettings(count: int, participants: int, human: bool) returns (end: RunEnd)
      requires Valid() && step == 3
      requires 1 <= count <= 3 && 2 <= participants <= 5
      modifies this`modelCount, this`participantCount, this`includeHuman, this`questionSets, this`buttonsShown
      ensures Valid() && buttonsShown == (end == Shown)
      ensures old(context).None? ==>
        end == Crashed && unchanged(this`modelCount, this`participantCount, this`includeHuman, this`questionSets)
      ensures old(context).Some? ==>
        && end == Shown
        && modelCount == Some(count) && participantCount == Some(participants) && includeHuman == Some(human)
        && questionSets == if old(modelCount) == Some(count) then old(questionSets) else None
    {
      if context.None? {
        buttonsShown := false;
        return Crashed;
      }
      if modelCount != Some(count) {
        modelCount := Some(count);
        questionSets := None;
      }
      participantCount := Some(participants);
      includeHuman := Some(human);
      buttonsShown := true;
      end := Shown;
    }

    /** Step 3, "Back to Context". */
    method BackToContext()
      requires Valid() && step == 3 && buttonsShown
      modifies this`step, this`buttonsShown
      ensures Valid() && step == 2 && !buttonsShown
    {
      step := BackStep(3, false);
      buttonsShown := false;
    }

    /** Step 3, "Generate Questions". */
    method StartQuestionGeneration()
      requires Valid() && step == 3 && buttonsShown
      modifies this`step, this`buttonsShown
      ensures Valid() && step == 4 && !buttonsShown
    {
      step := ForwardStep(3, false, false);
      buttonsShown := false;
    }

    /**
     * A run of step 4: generates the question sets unless they are stored,
     * then shows them. With a single model the run reads the synthesized
     * questions, which are never present before step 5, and fails; with no
     * question set at all, showing the first one fails.
     */
    method RenderQuestions(generated: Result<seq<BrainstormQuestions>, string>) returns (end: RunEnd)
      requires Valid() && step == 4
      modifies this`questionSets, this`error, this`buttonsShown
      ensures Valid() && buttonsShown == (end == Shown)
      ensures old(context).None? ==> end == Crashed && unchanged(this`questionSets, this`error)
      ensures old(context).Some? && old(questionSets).None? && generated.Failure? ==>
        end == Stopped && questionSets.None? && error == Some(ClientError(generated.error))
      ensures old(context).Some? && (old(questionSets).Some? || generated.Success?) ==>
        var sets := if old(questionSets).Some? then old(questionSets).value else generated.value;
        && questionSets == Some(sets) && error == old(error)
        && (end == Shown <==> modelCount != Some(1) && |sets| > 0)
        && (end != Shown ==> end == Crashed)
    {
      if context.None? {
        buttonsShown := false;
        return Crashed;
      }
      if questionSets.None? {
        if generated.Failure? {
          error := Some(ClientError(generated.error));
          buttonsShown := false;
          return Stopped;
        }
        questionSets := Some(generated.value);
      }
      if modelCount == Some(1) {
        // BrainstormQuestions(**synthesized_questions) with nothing synthesized
        assert synthesizedQuestions.None?;
        buttonsShown := false;
        return Crashed;
      }
      if |questionSets.value| == 0 {
        // question_sets[0] of an empty list
        buttonsShown := false;
        return Crashed;
      }
      buttonsShown := true;
      end := Shown;
    }

    /** Step 4, "Back to Configuration". */
    method BackToConfiguration()
      requires Valid() && step == 4 && buttonsShown
      modifies this`step, this`buttonsShown
      ensures Valid() && step == 3 && !buttonsShown
    {
      step := BackStep(4, false);
      buttonsShown := false;
    }

    /**
     * Step 4, "Synthesize Questions" ("Start Brainstorming" with a single
     * model). The single-model branches cannot be taken, so it always leads
     * to step 5.
     */
    method ForwardFromQuestions()
      requires Valid() && step == 4 && buttonsShown
      modifies this`step, this`buttonsShown
      ensures Valid() && step == 5 && !buttonsShown
    {
      step := ForwardStep(4, modelCount == Some(1), includeHuman == Some(true));
      buttonsShown := false;
    }

    /**
     * A run of step 5: unless synthesized questions are stored, synthesizes
     * the question sets and chunks the result. A failed chunking keeps the
     * synthesized questions, so the next run shows them with no chunks.
     */
    method RenderSynthesis(synthesized: Result<BrainstormQuestions, string>, chunked: Result<seq<Chunk>, string>)
      returns (end: RunEnd)
      requires Valid() && step == 5
      modifies this`synthesizedQuestions, this`questionChunks, this`error, this`buttonsShown
      ensures Valid() && buttonsShown == (end == Shown)
      ensures old(context).None? ==> end == Crashed && unchanged(this`synthesizedQuestions, this`questionChunks, this`error)
      ensures old(context).Some? && old(synthesizedQuestions).Some? ==>
        end == Shown && unchanged(this`synthesizedQuestions, this`questionChunks, this`error)
      ensures old(context).Some? && old(synthesizedQuestions).None? ==>
        if questionSets.None? then
          end == Stopped && synthesizedQuestions.None? && questionChunks == old(questionChunks)
          && error == Some(MissingState("question_sets"))
        else if synthesized.Failure? then
          end == Stopped && synthesizedQuestions.None? && questionChunks == old(questionChunks)
          && error == Some(ClientError(synthesized.error))
        else if chunked.Failure? then
          end == Stopped && synthesizedQuestions == Some(synthesized.value) && questionChunks == old(questionChunks)
          && error == Some(ClientError(chunked.error))
        else
          end == Shown && synthesizedQuestions == Some(synthesized.value) && questionChunks == Some(chunked.value)
          && error == old(error)
    {
      if context.None? {
        buttonsShown := false;
        return Crashed;
      }
      if synthesizedQuestions.None? {
        if questionSets.None? {
          error := Some(MissingState("question_sets"));
          buttonsShown := false;
          return Stopped;
        }
        if synthesized.Failure? {
          error := Some(ClientError(synthesized.error));
          buttonsShown := false;
          return Stopped;
        }
        synthesizedQuestions := Some(synthesized.value);
        if chunked.Failure? {
          error := Some(ClientError(chunked.error));
          buttonsShown := false;
          return Stopped;
        }
        questionChunks := Some(chunked.value);
      }
      buttonsShown := true;
      end := Shown;
    }

    /** Step 5, "Back to Question Generation": deletes the synthesis and the chunks. */
    method BackToQuestionGeneration()
      requires Valid() && step == 5 && buttonsShown
      modifies this`synthesizedQuestions, this`questionChunks, this`step, this`buttonsShown
      ensures Valid() && step == 4 && !buttonsShown
      ensures synthesizedQuestions.None? && questionChunks.None?
    {
      synthesizedQuestions := None;
      questionChunks := None;
      step := BackStep(5, false);
      buttonsShown := false;
    }

    /** Step 5, "Start Brainstorming": to step 6 when the human takes part, to step 7 otherwise. */
    method StartBrainstorming()
      requires Valid() && step == 5 && buttonsShown
      modifies this`step, this`buttonsShown
      ensures Valid() && !buttonsShown
      ensures step == if includeHuman == Some(true) then 6 else 7
    {
      step := ForwardStep(5, false, includeHuman == Some(true));
      buttonsShown := false;
    }

    /**
     * A run of step 6. The first run creates one response with a single ""
     * answer per question; every run then reads the text areas of the stored
     * answers (`entered(i, j, k)`) and the add buttons (`added(i, j)`) and
     * stores the updated responses when there are any. A text area created
     * on the first run holds its default "", and blank answers are dropped,
     * so every stored response is left with no answer and later runs draw
     * no text area.
     */
    method RenderHumanParticipation(entered: (nat, nat, nat) -> string, added: (nat, nat) -> bool) returns (end: RunEnd)
      requires Valid() && step == 6
      requires humanResponses.None? ==> forall i, j :: entered(i, j, 0) == ""
      modifies this`humanResponses, this`buttonsShown
      ensures Valid() && buttonsShown == (end == Shown)
      ensures questionChunks.None? ==> end == Crashed
      ensures old(context).None? ==> end == Crashed && humanResponses == old(humanResponses)
      ensures old(context).Some? && questionChunks.None? ==>
        end == Crashed && humanResponses == if old(humanResponses).Some? then old(humanResponses) else Some([])
      ensures old(context).Some? && questionChunks.Some? ==>
        var stored := if old(humanResponses).Some? then old(humanResponses).value else InitialHumanResponses(questionChunks.value);
        var updated := HumanAnswerUpdates(questionChunks.value, stored, entered, added);
        end == Shown && humanResponses == Some(if updated != [] then updated else stored)
    {
      if context.None? {
        buttonsShown := false;
        return Crashed;
      }
      var firstRun := humanResponses.None?;
      if humanResponses.None? {
        if questionChunks.None? {
          humanResponses := Some([]);
          buttonsShown := false;
          return Crashed;
        }
        var initial := BuildInitialHumanResponses(questionChunks.value);
        humanResponses := Some(initial);
      }
      if questionChunks.None? {
        buttonsShown := false;
        return Crashed;
      }
      var chunks := questionChunks.value;
      var stored := humanResponses.value;
      var updated := CollectHumanAnswers(chunks, stored, entered, added);
      if firstRun {
        InitialHumanResponsesAnswers(chunks);
        InitialRunUpdatesAll(chunks, entered, added);
      }
      StepSixLeavesNoAnswer(chunks, stored, entered, added);
      if updated != [] {
        humanResponses := Some(updated);
      }
      buttonsShown := true;
      end := Shown;
    }

    /** Step 6, "Back to Participant Selection": deletes the human's responses. */
    method BackToParticipantSelection()
      requires Valid() && step == 6 && buttonsShown
      modifies this`humanResponses, this`step, this`buttonsShown
      ensures Valid() && step == 5 && humanResponses.None? && !buttonsShown
    {
      humanResponses := None;
      step := BackStep(6, true);
      buttonsShown := false;
    }

    /**
     * Step 6, "Continue to AI Brainstorming": submits the responses that have
     * content, which are none.
     */
    method ContinueToAiBrainstorming()
      requires Valid() && step == 6 && buttonsShown
      modifies this`humanBrainstormResponses, this`step, this`buttonsShown
      ensures Valid() && step == 7 && !buttonsShown
      ensures humanBrainstormResponses == Some(SubmittedResponses(humanResponses.value))
      ensures humanBrainstormResponses == Some([])
    {
      SubmittedResponsesOfUnanswered(humanResponses.value);
      humanBrainstormResponses := Some(SubmittedResponses(humanResponses.value));
      step := ForwardStep(6, false, true);
      buttonsShown := false;
    }

    /**
     * A run of step 7: unless responses are stored, runs the AI participants
     * and, when the human takes part and submitted, adds the human's
     * responses as the last participant; then shows them, which reads the
     * chunks as soon as there is one response.
     */
    method RenderAiBrainstorming(brainstormed: Result<seq<seq<BrainstormResponse>>, string>) returns (end: RunEnd)
      requires Valid() && step == 7
      modifies this`allResponses, this`error, this`buttonsShown
      ensures Valid() && buttonsShown == (end == Shown)
      ensures old(allResponses).None? && context.None? ==>
        end == Stopped && allResponses.None? && error == Some(MissingState("context"))
      ensures old(allResponses).None? && context.Some? && brainstormed.Failure? ==>
        end == Stopped && allResponses.None? && error == Some(ClientError(brainstormed.error))
      ensures old(allResponses).Some? || (context.Some? && brainstormed.Success?) ==>
        var all := if old(allResponses).Some? then old(allResponses).value
                   else if includeHuman == Some(true) && humanBrainstormResponses.Some?
                   then brainstormed.value + [humanBrainstormResponses.value]
                   else brainstormed.value;
        && allResponses == Some(all)
        && if questionChunks.None? && TotalLength(all) > 0
           then end == Stopped && error == Some(MissingState("question_chunks"))
           else end == Shown && error == old(error)
      ensures questionChunks.None? && end == Shown ==> allResponses.Some? && TotalLength(allResponses.value) == 0
      ensures old(allResponses).None? && includeHuman == Some(true) && humanBrainstormResponses.Some? && end == Shown ==>
        |allResponses.value| > 0 && allResponses.value[|allResponses.value| - 1] == []
    {
      if allResponses.None? {
        if context.None? {
          error := Some(MissingState("context"));
          buttonsShown := false;
          return Stopped;
        }
        if brainstormed.Failure? {
          error := Some(ClientError(brainstormed.error));
          buttonsShown := false;
          return Stopped;
        }
        var responses := brainstormed.value;
        if includeHuman == Some(true) && humanBrainstormResponses.Some? {
          responses := responses + [humanBrainstormResponses.value];
        }
        allResponses := Some(responses);
      }
      if questionChunks.None? && TotalLength(allResponses.value) > 0 {
        error := Some(MissingState("question_chunks"));
        buttonsShown := false;
        return Stopped;
      }
      buttonsShown := true;
      end := Shown;
    }

    /** Step 7, "Back to Previous Step": deletes the responses. */
    method BackToPreviousStep()
      requires Valid() && step == 7 && buttonsShown
      modifies this`allResponses, this`step, this`buttonsShown
      ensures Valid() && allResponses.None? && !buttonsShown
      ensures step == if includeHuman == Some(true) then 6 else 5
    {
      allResponses := None;
      step := BackStep(7, includeHuman == Some(true));
      buttonsShown := false;
    }

    /** Step 7, "Synthesize Results". */
    method SynthesizeResults()
      requires Valid() && step == 7 && buttonsShown
      modifies this`step, this`buttonsShown
      ensures Valid() && step == 8 && !buttonsShown
    {
      step := ForwardStep(7, false, false);
      buttonsShown := false;
    }

    /** A run of step 8: synthesizes the responses unless a synthesis is stored. */
    method RenderResults(synthesized: Result<BrainstormSynthesis, string>) returns (end: RunEnd)
      requires Valid() && step == 8
      modifies this`finalSynthesis, this`error, this`buttonsShown
      ensures Valid() && buttonsShown == (end == Shown)
      ensures old(finalSynthesis).Some? ==> end == Shown && unchanged(this`finalSynthesis, this`error)
      ensures old(finalSynthesis).None? && allResponses.None? ==>
        end == Stopped && finalSynthesis.None? && error == Some(MissingState("all_responses"))
      ensures old(finalSynthesis).None? && allResponses.Some? && synthesized.Failure? ==>
        end == Stopped && finalSynthesis.None? && error == Some(ClientError(synthesized.error))
      ensures old(finalSynthesis).None? && allResponses.Some? && synthesized.Success? ==>
        end == Shown && finalSynthesis == Some(synthesized.value) && error == old(error)
    {
      if finalSynthesis.None? {
        if allResponses.None? {
          error := Some(MissingState("all_responses"));
          buttonsShown := false;
          return Stopped;
        }
        if synthesized.Failure? {
          error := Some(ClientError(synthesized.error));
          buttonsShown := false;
          return Stopped;
        }
        finalSynthesis := Some(synthesized.value);
      }
      buttonsShown := true;
      end := Shown;
    }

    /** Step 8, "Back to Brainstorming": deletes the synthesis. */
    method BackToBrainstorming()
      requires Valid() && step == 8 && buttonsShown
      modifies this`finalSynthesis, this`step, this`buttonsShown
      ensures Valid() && step == 7 && finalSynthesis.None? && !buttonsShown
    {
      finalSynthesis := None;
      step := BackStep(8, false);
      buttonsShown := false;
    }

    /** Step 8, "Start New Brainstorming Session": deletes every key; the rerun initializes them again. */
    method StartNewSession()
      requires Valid() && step == 8 && buttonsShown
      modifies this
      ensures Valid() && IsInitial()
    {
      ForgetServiceData();
      ForgetParticipation();
      step, useMockData, clientUsesMock := 1, false, false;
      ideaInput, error := None, None;
      buttonsShown := false;
    }
  }
}
