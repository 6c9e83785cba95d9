# Idea Symphony, modelled in Dafny

Idea Symphony is a brainstorming assistant. A user describes an idea. A
chain of language-model agents then:

- distils the idea into a context document;
- generates one or more sets of questions and synthesizes them into one set;
- splits that set into topic chunks;
- has several simulated participants answer every chunk;
- synthesizes all answers into a final document.

A Streamlit wizard of eight steps drives the chain. It keeps every stage's
result in the session, so that a rerun of the page does not repeat an
agent call.

This project models three parts of the system:

- **The records** (`models.dfy`, module `Models`). The pydantic models of
  `shared/models.py` become datatypes. An optional field becomes an `Option`
  whose default is `None`.
- **The orchestrator** (`symphony.dfy`, module `Symphony`, and
  `transcript.dfy`, module `Transcript`). The list reshaping and text
  building of `backend/app/idea_symphony.py` are modelled around the agent
  calls, in two styles:
  - The loops of `generate_questions`, `chunk_questions`,
    `brainstorm_responses` and `synthesize_responses` become methods. Each is
    proved against a specification function.
  - The one-set bypass and set enumeration of `synthesize_questions` become
    functions.

  Every agent is a function parameter. It receives what its prompt embeds
  and answers with the declared record, or fails. Every stage that calls
  agents also returns the requests it sent. `Symphony.RanUntilFailure` says
  which calls a stage that stops at its first failure has made.
  `Transcript` holds a reader for the markdown given to the final
  synthesizer. It proves that this text determines every participant's
  responses whenever no question or answer spans several lines.
- **The wizard** (`wizard.dfy`, module `Wizard`, and `app.dfy`, module
  `App`). `App.Session` mirrors `st.session_state`, one field per key.
  Streamlit reruns the script after every click, so a run of step *k* is one
  `Render...` method. A run does the step's work: it fetches what is not
  stored yet and reads the widgets. A run ends in one of three ways:
  - it draws the navigation buttons;
  - `handle_error` records a fault and the run returns;
  - an exception outside any `try` ends it.

  Each button is one method, callable only when the latest run of its step
  drew it. Client results and widget values are parameters. The navigation
  targets, and the loops and filters of steps 6 and 7, are functions and
  methods of `Wizard`.

`Session.Valid` is an invariant that the constructor establishes and every
run and button method preserves. The two deletion helpers
`ForgetServiceData` and `ForgetParticipation` neither assume nor ensure it.
`ForgetParticipation` alone can leave a session past step 4 without its
settings. Its one caller, `StartNewSession`, restores the invariant by
returning to step 1. The invariant makes several behaviours of
`frontend/app/app.py` explicit; the model keeps them as written:

- **A single model never gets past step 4.** With `model_count == 1`, step 4
  rebuilds `BrainstormQuestions` from `synthesized_questions`
  (`frontend/app/app.py:240-244`), outside any `try`. Nothing sets that key
  before step 5, and the invariant proves it is `None` at step 4. So every
  such run crashes before drawing its buttons (`App.Session.RenderQuestions`).
  `Session.Valid` records that a single-model session never leaves step 4
  (`modelCount != Some(1)` from step 5 on). Two consequences follow:
  - The single-model branch of the step-4 button (lines 277-281) is
    unreachable: `App.Session.ForwardFromQuestions` always leads to step 5.
  - The Back button of step 7 would send a single-model session to step 5,
    the step it skipped (lines 500-503,
    `Wizard.SingleModelBackLandsOnSkippedStep`). As written, no session
    reaches step 7 with a single model, so this branch is unreachable too.
- **The human never submits an answer.** Step 6 creates one response with
  the answer `""` per question. In the same run, it reads each text area,
  which shows its default `""`, and drops blank answers (line 392). So every
  stored response is left with no answer, and no later run draws a text
  area. The invariant records that human responses never hold an answer.
  `App.Session.ContinueToAiBrainstorming` proves that the human submits the
  empty list. At step 7 the human participant is therefore an empty list
  (`App.Session.RenderAiBrainstorming`).
- **A failed chunking strands the session.** When chunking fails at step
  5, the synthesized questions are kept and the chunks stay absent
  (lines 302-308, `App.Session.RenderSynthesis`). The next run of step 5
  draws its buttons, and forward leads to step 6 or 7. Without chunks,
  every run of step 6 crashes (`App.Session.RenderHumanParticipation`). A
  run of step 7 draws its buttons only when no participant has a response
  (`App.Session.RenderAiBrainstorming`). Otherwise no Back button is drawn,
  and the session cannot go on.
- **Switching the mock mode at step 3 or later strands the session.** The
  toggle deletes the context and every later result but keeps the step
  (lines 69-78, `App.Session.ToggleMockData`). Steps 3 to 6 then read the
  missing context outside any `try` and crash on every run (lines 170, 222,
  292 and 341). Step 7 cannot build its request without the context, and
  step 8 cannot synthesize without the responses. Both stop in the error
  handler before drawing a button (`App.Session.RenderAiBrainstorming`,
  `App.Session.RenderResults`). Step 2 is unaffected: it creates the context
  again from the stored idea.
- **The topic search does not stop at an empty heading.** It stops at the
  first chunk that lists the question under a non-empty heading. An empty
  heading is falsy (`if topic:`, line 480), so the search goes on past it
  (`Wizard.FindTopic`).
- **Participants run one after another.** The participants of
  `brainstorm_responses` are independent of each other and could run
  concurrently, but the function awaits each agent call in turn. The model
  follows the code and states the order of the calls.

## Model

| member | source | states |
|---|---|---|
| Models.IdeaInputDefault | shared/models.py:4-7 | An idea given without a document has `documentContent == None`. |
| Models.SynthesisDefault | shared/models.py:32-35 | A synthesis given without an attributed version has `attributedContent == None`. |
| Text.NatToString | backend/app/idea_symphony.py:138 | The rendering of `i+1` in an f-string is non-empty, all digits, and has no leading zero. |
| Text.ParseNatToString | backend/app/idea_symphony.py:138 | Reading the rendered digits back gives the number. |
| Text.NatToStringInjective | backend/app/idea_symphony.py:138 | Distinct numbers are rendered as distinct strings. |
| Text.JoinSnoc | backend/app/idea_symphony.py:86 | Joining one more part appends the separator and that part. |
| Text.Strip | frontend/app/app.py:392 | `s.strip()` is empty exactly when `s` is all whitespace. Otherwise it begins and ends with a non-whitespace character. |
| Symphony.ContextRequestOf | backend/app/idea_symphony.py:60-63 | The context request carries the idea text and the document. A missing or empty document is replaced by "No additional document provided". |
| Symphony.EmptyDocumentLikeMissing | backend/app/idea_symphony.py:62 | An empty uploaded document gives the same request as no document. |
| Symphony.DocumentsDistinguished | backend/app/idea_symphony.py:62 | Distinct non-empty documents give distinct requests. |
| Symphony.CreateContext | backend/app/idea_symphony.py:58-68 | One call of the context agent with the request for the idea, whose answer is the result. |
| Symphony.QuestionRange | backend/app/idea_symphony.py:76 | Round `i` asks for `5+2i` to `8+3i` questions. The lower bound is below the upper, by `3+i`. |
| Symphony.QuestionRangeGrows | backend/app/idea_symphony.py:76 | Both bounds grow strictly from round to round. |
| Symphony.TwoRoundRanges | backend/app/idea_symphony.py:76 | The first two rounds ask for 5-8 and 7-11 questions. |
| Symphony.GenerateQuestions | backend/app/idea_symphony.py:70-79 | Sends one request per round, in order, and stops at the first failure. On success it returns `model_count` sets: set `i` is what call `i` returned. |
| Symphony.SynthesizeQuestions | backend/app/idea_symphony.py:81-91 | Exactly one set is returned unchanged, with no agent call. Any other number of sets is combined and sent in one call, whose answer is the result. |
| Symphony.CombinedStartsWithFirstSet | backend/app/idea_symphony.py:85-86 | The combined text starts with "Question Set 1:" and the first set. |
| Symphony.CombinedSnoc | backend/app/idea_symphony.py:85-86 | Sets are enumerated in input order. Each further set adds a blank line, then the next label, then that set. |
| Symphony.SetLabelsDistinct | backend/app/idea_symphony.py:86 | No two sets carry the same label. |
| Symphony.ChunkedShape | backend/app/idea_symphony.py:95-106 | One chunk per group, in order, with the group's heading. Each chunk has the group's questions, in order, with both fields copied. |
| Symphony.RegroupChunked | backend/app/idea_symphony.py:93-107 | Regrouping the chunks gives back the question set. |
| Symphony.ChunkedRegroup | backend/app/idea_symphony.py:93-107 | Chunking regrouped chunks gives back the chunks, so chunking is a bijection. |
| Symphony.ChunkQuestions | backend/app/idea_symphony.py:93-107 | The loops build exactly the chunks of the question set, whose regrouping is the set. No agent is called. |
| Symphony.BrainstormPlanSize | backend/app/idea_symphony.py:116-130 | A full run makes one call per participant and chunk. |
| Symphony.OneResponsePerQuestion | backend/app/idea_symphony.py:119-130 | A participant's responses number the questions of all chunks when each chunk call answers each of its questions once. |
| Symphony.RunParticipant | backend/app/idea_symphony.py:118-130 | One participant calls the agent once per chunk, in chunk order, until a failure. On success its responses are the chunk answers concatenated. |
| Symphony.BrainstormResponses | backend/app/idea_symphony.py:109-132 | Calls follow the participant-by-chunk plan and stop at the first failure. On success there are `participant_count` lists, and list `p` is participant `p`'s chunk answers concatenated in chunk order. |
| Symphony.AppendResponse | backend/app/idea_symphony.py:139-143 | The `+=` steps append "### question", a blank line, one "- answer" line per answer, and a blank line. |
| Symphony.ParticipantText | backend/app/idea_symphony.py:137-143 | A participant's text is its "## Participant i+1 Responses" header followed by its response blocks in order. |
| Symphony.SynthesizeResponses | backend/app/idea_symphony.py:134-151 | The request is the participant blocks joined by blank lines, and the result is the synthesizer's answer to it. |
| Transcript.ParseAnswerLines | backend/app/idea_symphony.py:141-142 | The bullet lines read back as the answers, in order. |
| Transcript.ParseResponseBlock | backend/app/idea_symphony.py:139-143 | One response block reads back as that response. |
| Transcript.ParseResponseBlocks | backend/app/idea_symphony.py:139-143 | A participant's blocks read back as its responses, in order. |
| Transcript.ParseParticipantBlocks | backend/app/idea_symphony.py:136-145 | The participant texts joined by blank lines read back as every participant's responses. |
| Transcript.ResponsesTextRoundTrip | backend/app/idea_symphony.py:134-145 | The synthesizer's input text determines all responses when no question or answer contains a line break. |
| Wizard.ForwardStep | frontend/app/app.py:275-284 | Forward always moves ahead. From 4 it leads to 5 exactly when several models are configured. From 4 with a single model, and from 5, it leads to 6 exactly when the human takes part, else to 7. From every other step it leads to the next one. |
| Wizard.BackStep | frontend/app/app.py:498-504 | Back always moves to an earlier step. From 7 it leads to 6 exactly when the human takes part, else to 5. From 6 it leads to 5, and from every other step to the one before. |
| Wizard.BackUndoesForward | frontend/app/app.py:498-504 | Back after Forward returns to the step, for every setting a session can be in, except from step 4 with a single model. |
| Wizard.SingleModelBackLandsOnSkippedStep | frontend/app/app.py:500-503 | With a single model, Forward from 4 skips 5, yet Back from the step it reaches goes to 5. |
| Wizard.KeepNonBlank | frontend/app/app.py:392 | Kept answers are answers of the input that are not blank, no more of them than the input has. Order and repeats are pinned by `Wizard.KeepNonBlankAppend` and `Wizard.KeepNonBlankSingle`. |
| Wizard.KeepNonBlankSingle | frontend/app/app.py:392 | One answer is kept exactly when it is not blank. |
| Wizard.KeepNonBlankAppend | frontend/app/app.py:392 | Filtering a concatenation gives the filtered parts in the same order, so answers keep their input order and repeats. |
| Wizard.KeepNonBlankStripped | frontend/app/app.py:392 | Every kept answer has a non-empty `strip()`. |
| Wizard.KeepNonBlankKeeps | frontend/app/app.py:392 | Every answer that is not blank is kept. |
| Wizard.KeepNonBlankOfBlank | frontend/app/app.py:392 | Nothing is kept of answers that are all blank. |
| Wizard.KeepNonBlankIdempotent | frontend/app/app.py:417 | Filtering twice equals filtering once. |
| Wizard.InitialHumanResponsesLength | frontend/app/app.py:344-351 | There is one initial response per question over all chunks. |
| Wizard.InitialHumanResponsesOrder | frontend/app/app.py:344-351 | Question `j` of chunk `i` has the entry after the questions of earlier chunks. That entry is keyed by its short summary and holds the answer `""`. |
| Wizard.InitialHumanResponsesAnswers | frontend/app/app.py:344-351 | Every initial response holds exactly the answer `""`. |
| Wizard.BuildInitialHumanResponses | frontend/app/app.py:344-351 | The nested `append` loops build the initial responses. |
| Wizard.FindResponse | frontend/app/app.py:366-370 | Finds the first response keyed by the summary, or none exactly when no response is. |
| Wizard.HumanAnswerUpdatesNonBlank | frontend/app/app.py:390-394 | No updated response holds a blank answer. |
| Wizard.HumanAnswerUpdatesEmpty | frontend/app/app.py:376-394 | When every answer a run reads is blank, every updated response has no answer. |
| Wizard.StepSixLeavesNoAnswer | frontend/app/app.py:343-400 | Every updated response is empty if two conditions hold: stored responses hold at most one answer, and either none holds any or the first text areas hold `""`. |
| Wizard.InitialRunUpdatesAll | frontend/app/app.py:357-400 | The first run gives one update per initial response. |
| Wizard.ReadQuestion | frontend/app/app.py:372-394 | Reading one question gives its update: the text areas, one more `""` if "+" was clicked, blanks dropped. |
| Wizard.ReadChunk | frontend/app/app.py:362-396 | Reading one chunk gives its questions' updates in order. |
| Wizard.CollectHumanAnswers | frontend/app/app.py:357-397 | The nested loops collect every update in chunk-then-question order. |
| Wizard.FirstTitled | frontend/app/app.py:474-481 | Finds the first chunk that lists the question under a non-empty heading. No earlier chunk is one. |
| Wizard.FindTopic | frontend/app/app.py:474-481 | There is no topic exactly when no chunk lists the question. Otherwise the topic is the first such heading that is not empty, or `""` when all are empty. |
| Wizard.CleanedNotEmpty | frontend/app/app.py:414-421 | A response with content keeps at least one answer. |
| Wizard.SubmittedResponses | frontend/app/app.py:414-421 | Every submitted response has content and only non-blank answers. There are no more of them than responses. Order and repeats are pinned by `Wizard.SubmittedResponsesAppend` and `Wizard.SubmittedResponsesSingle`. |
| Wizard.SubmittedResponsesSingle | frontend/app/app.py:414-421 | One response is submitted, cleaned of its blank answers, exactly when it has content. |
| Wizard.SubmittedResponsesAppend | frontend/app/app.py:414-421 | Submitting a concatenation gives the submitted parts in the same order, so responses keep their order and repeats. |
| Wizard.SubmittedResponsesStripped | frontend/app/app.py:414-421 | Every submitted answer has a non-empty `strip()`. |
| Wizard.SubmittedResponsesMembers | frontend/app/app.py:414-421 | A response is submitted exactly when it is the cleaned form of a response with content. |
| Wizard.SubmittedResponsesOfUnanswered | frontend/app/app.py:414-421 | Responses without answers submit nothing. |
| Wizard.SubmittedResponsesIdempotent | frontend/app/app.py:414-421 | Submitting the submitted responses changes nothing. |
| App.Session.constructor | frontend/app/app.py:22-45 | A new session is at step 1 with live data and no stored value, and satisfies the invariant. |
| App.Session.ForgetServiceData | frontend/app/app.py:74-77 | Deletes context, question sets, synthesis, chunks, responses and final synthesis. |
| App.Session.ForgetParticipation | frontend/app/app.py:571-575 | Deletes the settings and the human's responses. |
| App.Session.ToggleMockData | frontend/app/app.py:69-78 | Changing the mode replaces the client, deletes exactly the six service keys, and keeps the step. The same mode changes nothing. |
| App.Session.ClearError | frontend/app/app.py:81-85 | Clears the displayed error. |
| App.Session.SubmitIdea | frontend/app/app.py:96-112 | Stores the idea (the mock idea without a document in mock mode) and moves to step 2. |
| App.Session.RenderContext | frontend/app/app.py:126-150 | A failed creation is recorded and stops the run. Otherwise the context is the created or stored one, with the edit applied. |
| App.Session.BackToIdea | frontend/app/app.py:155-157 | Step 2 back to step 1. |
| App.Session.ConfigureBrainstorming | frontend/app/app.py:160-162 | Step 2 on to step 3. |
| App.Session.RenderSettings | frontend/app/app.py:165-202 | Stores the settings. A changed model count deletes the question sets, and an unchanged one keeps them. With no context the run crashes. |
| App.Session.BackToContext | frontend/app/app.py:207-209 | Step 3 back to step 2. |
| App.Session.StartQuestionGeneration | frontend/app/app.py:212-214 | Step 3 on to step 4. |
| App.Session.RenderQuestions | frontend/app/app.py:216-265 | Generates the sets unless stored, and records a failure. The buttons are drawn exactly when there is more than one model and at least one set; otherwise the run crashes. |
| App.Session.BackToConfiguration | frontend/app/app.py:270-272 | Step 4 back to step 3. |
| App.Session.ForwardFromQuestions | frontend/app/app.py:274-284 | Always leads to step 5, since the single-model branch cannot be reached. |
| App.Session.RenderSynthesis | frontend/app/app.py:287-316 | Synthesizes and chunks unless stored. Missing sets and failed calls are recorded; a failed chunking keeps the synthesis. |
| App.Session.BackToQuestionGeneration | frontend/app/app.py:321-325 | Deletes the synthesis and chunks, and moves back to step 4. |
| App.Session.StartBrainstorming | frontend/app/app.py:328-333 | Step 5 leads to 6 when the human takes part, else to 7. |
| App.Session.RenderHumanParticipation | frontend/app/app.py:336-400 | Creates the initial responses on the first run, then stores the updates if there are any. The invariant keeps every response without answers. Without chunks the run always crashes. |
| App.Session.BackToParticipantSelection | frontend/app/app.py:405-409 | Deletes the human's responses and moves back to step 5. |
| App.Session.ContinueToAiBrainstorming | frontend/app/app.py:412-425 | Submits the filtered responses, which are the empty list, and moves to step 7. |
| App.Session.RenderAiBrainstorming | frontend/app/app.py:428-493 | Brainstorms unless stored. When the human takes part and submitted, it appends the human's responses as the last participant, an empty list. Missing context or chunks and failures are recorded. Without chunks, the buttons are drawn only when no participant has a response. |
| App.Session.BackToPreviousStep | frontend/app/app.py:498-504 | Deletes the responses and moves back to 6 with a human, else to 5. |
| App.Session.SynthesizeResults | frontend/app/app.py:507-509 | Step 7 on to step 8. |
| App.Session.RenderResults | frontend/app/app.py:512-528 | Synthesizes the responses unless stored. Missing responses and failures are recorded. |
| App.Session.BackToBrainstorming | frontend/app/app.py:565-568 | Deletes the final synthesis and moves back to step 7. |
| App.Session.StartNewSession | frontend/app/app.py:571-575 | Deleting every key and rerunning leaves a fresh initial session. |

## Left out

- Prompt wording, model identifiers and agent configuration are left out. A request value holds only what its prompt embeds.
- `format_as_xml` is library code. It is the parameter `render` of `Symphony.SynthesizeQuestions`.
- The wizard does not call `Symphony.CreateContext` itself. The context the client returns is the parameter `created` of `App.Session.RenderContext`.
- Each agent is a function of its request, so it answers a given request deterministically. A real model may answer two identical requests differently, for instance two identical chunks of one participant. No proved property relies on this. Beyond that, nothing is assumed about an answer except its record type.
- The default arguments `model_count = 1` (backend/app/idea_symphony.py:70) and `participant_count = 2` (backend/app/idea_symphony.py:113) are left out. Their only callers, the handlers in backend/app/main.py:42-47 and 66-75, pass both, so the model takes them as ordinary parameters.
- The HTTP layer does not forward the slider values, read as written. The handlers of backend/app/main.py:42-44 and 66-69 declare `model_count` and `participant_count` as plain parameters, which the web framework reads from the query string. frontend/app/client.py:97-98 and 139-143 send them in the JSON body instead, so the live backend uses the defaults 1 and 2. The model passes the wizard's values straight to the orchestrator.
- `backend/app/main.py` is HTTP routing that wraps exceptions as status 500. `frontend/app/client.py` is HTTP transport and the mock JSON file. Neither is part of this model: each client call is a `Result` parameter, and the mock client is the flag `clientUsesMock`. In mock mode, the client returns its stored `brainstorm` list by reference (frontend/app/client.py:72-76). Step 7 appends the human's list to it (frontend/app/app.py:449), so each later visit to step 7 with a human adds one more participant list. The unconstrained `brainstormed` parameter of `App.Session.RenderAiBrainstorming` admits these answers, but the model does not capture the aliasing.
- Streamlit rendering is left out: markdown, expanders, spinners, progress bars, tabs, download buttons with time-stamped names, and the estimated-time text.
- `run_async` and `async`/`await` are left out. Every stage runs sequentially, as written.
- Reading and decoding the uploaded file is left out. The document arrives as an optional string.
- Pydantic validation and coercion are left out. Only the record shapes are modelled.
- App.Session.SubmitIdea: the mock idea is taken as a string. A mock file without "idea_text" would yield `None`, which this model does not represent.
- App.Session.RenderHumanParticipation: requires that on the first run every text area returns its default `""`. This is Streamlit's widget behaviour, which the model does not include.
- App.Session.RenderAiBrainstorming: does not model the failure of `st.tabs` on an empty list. That failure happens only when the client returns no participant and no human list is appended. In that case the model draws the buttons.
- Exceptions whose message would be displayed are modelled by their kind. A client failure carries its message, and a read of a missing value names the key (`MissingState`).
