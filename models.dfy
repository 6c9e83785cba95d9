/**
 * The record types shared by the service and the wizard (shared/models.py).
 * Every record is an immutable value; an optional field is an `Option` whose
 * default is `None`, as in the pydantic declarations.
 */
module Models {

  datatype Option<+T> = None | Some(value: T)

  /** The outcome of a call that may raise: an agent run, a client request. */
  datatype Result<+T, +E> = Success(value: T) | Failure(error: E)

  /** What the user types in step 1, with the optional uploaded document. */
  datatype IdeaInput = IdeaInput(ideaText: string, documentContent: Option<string> := None)

  /** The distilled context document. */
  datatype BrainstormingContext = BrainstormingContext(context: string)

  datatype BrainstormQuestion = BrainstormQuestion(shortSummary: string, fullDescription: string)

  /** Questions gathered under one heading, in order. */
  datatype BrainstormQuestionGroup = BrainstormQuestionGroup(heading: string, questions: seq<BrainstormQuestion>)

  /** A complete question set: its groups, in order. */
  datatype BrainstormQuestions = BrainstormQuestions(questionGroups: seq<BrainstormQuestionGroup>)

  /** One participant's answers to one question, in order. */
  datatype BrainstormResponse = BrainstormResponse(question: string, answers: seq<string>)

  /** The final document, with the optional attributed version. */
  datatype BrainstormSynthesis = BrainstormSynthesis(synthesizedContent: string, attributedContent: Option<string> := None)

  /** An idea submitted without a document has none. */
  lemma IdeaInputDefault(ideaText: string)
    ensures IdeaInput(ideaText).documentContent == None
    ensures IdeaInput(ideaText) == IdeaInput(ideaText, None)
  {
  }

  /** A synthesis made without an attributed version has none. */
  lemma SynthesisDefault(content: string)
    ensures BrainstormSynthesis(content).attributedContent == None
    ensures BrainstormSynthesis(content) == BrainstormSynthesis(content, None)
  {
  }
}
