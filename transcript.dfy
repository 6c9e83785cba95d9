/**
 * A reader for the text that synthesize_responses builds
 * (backend/app/idea_symphony.py), and the proof that it recovers every
 * participant's responses from that text whenever no question or answer
 * spans several lines: the text loses nothing.
 */
module Transcript {
  import opened Models
  import opened Seqs
  import opened Symphony

  predicate NoNewline(s: string)
  {
    forall i :: 0 <= i < |s| ==> s[i] != '\n'
  }

  /** The question and every answer fit on one line. */
  predicate SingleLine(response: BrainstormResponse)
  {
    NoNewline(response.question) && forall k :: 0 <= k < |response.answers| ==> NoNewline(response.answers[k])
  }

  predicate AllSingleLine(responses: seq<BrainstormResponse>)
  {
    forall k :: 0 <= k < |responses| ==> SingleLine(responses[k])
  }

  predicate StartsWith(s: string, prefix: string)
  {
    |prefix| <= |s| && s[..|prefix|] == prefix
  }

  /** The length of the first line of `s`, without its line end. */
  function LineLength(s: string): (n: nat)
    ensures n <= |s|
    ensures NoNewline(s[..n])
    ensures n < |s| ==> s[n] == '\n'
  {
    if s == [] || s[0] == '\n' then 0 else 1 + LineLength(s[1..])
  }

  lemma {:induction false} LineLengthOf(line: string, rest: string)
    requires NoNewline(line)
    ensures LineLength(line + "\n" + rest) == |line|
  {
    if line != [] {
      assert (line + "\n" + rest)[1..] == line[1..] + "\n" + rest;
      LineLengthOf(line[1..], rest);
    }
  }

  /** Bullet lines "- answer", up to the first line that is not one. */
  function ParseAnswers(s: string): (r: Option<(seq<string>, string)>)
    ensures r.Some? ==> |r.value.1| <= |s|
    decreases |s|
  {
    if !StartsWith(s, "- ") then Some(([], s))
    else
      var n := LineLength(s[2..]);
      if 2 + n == |s| then None
      else
        match ParseAnswers(s[3 + n..])
        case None => None
        case Some((answers, rest)) => Some(([s[2..2 + n]] + answers, rest))
  }

  /** One response block: "### question", a blank line, the bullets, a blank line. */
  function ParseResponse(s: string): (r: Option<(BrainstormResponse, string)>)
    requires StartsWith(s, "### ")
    ensures r.Some? ==> |r.value.1| < |s|
  {
    var n := LineLength(s[4..]);
    if |s| < 6 + n || s[5 + n] != '\n' then None
    else
      match ParseAnswers(s[6 + n..])
      case None => None
      case Some((answers, rest)) =>
        if StartsWith(rest, "\n") then Some((BrainstormResponse(s[4..4 + n], answers), rest[1..])) else None
  }

  /** Response blocks, up to the first line that does not open one. */
  function ParseResponses(s: string): (r: Option<(seq<BrainstormResponse>, string)>)
    ensures r.Some? ==> |r.value.1| <= |s|
    decreases |s|
  {
    if !StartsWith(s, "### ") then Some(([], s))
    else
      match ParseResponse(s)
      case None => None
      case Some((response, rest)) =>
        match ParseResponses(rest)
        case None => None
        case Some((responses, rest')) => Some(([response] + responses, rest'))
  }

  /** The blocks of participants `first`, `first + 1`, ..., separated by blank lines. */
  function ParseParticipants(s: string, first: nat): Option<seq<seq<BrainstormResponse>>>
    decreases |s|
  {
    var header := ParticipantHeader(first);
    if !StartsWith(s, header) then None
    else
      match ParseResponses(s[|header|..])
      case None => None
      case Some((responses, rest)) =>
        if rest == [] then Some([responses])
        else if StartsWith(rest, "\n\n") then
          match ParseParticipants(rest[2..], first + 1)
          case None => None
          case Some(others) => Some([responses] + others)
        else None
  }

  /** Every participant's responses, read back from the text sent to the final synthesizer. */
  function ParseResponsesText(s: string): Option<seq<seq<BrainstormResponse>>>
  {
    if s == [] then Some([]) else ParseParticipants(s, 0)
  }

  /** The bullets of a list of answers: the first answer's, then the others'. */
  lemma AnswerLinesCons(answers: seq<string>)
    requires answers != []
    ensures AnswerLines(answers) == "- " + answers[0] + "\n" + AnswerLines(answers[1..])
  {
    var lines := AnswerLineList(answers);
    FlattenCons(lines);
    assert lines[1..] == AnswerLineList(answers[1..]);
  }

  /** Reading one bullet line and whatever follows it. */
  lemma ParseAnswerStep(a: string, tail: string)
    requires NoNewline(a)
    ensures ParseAnswers("- " + a + "\n" + tail)
         == match ParseAnswers(tail)
            case None => None
            case Some((answers, rest)) => Some(([a] + answers, rest))
  {
    var s := "- " + a + "\n" + tail;
    assert s[..2] == "- ";
    assert s[2..] == a + "\n" + tail;
    LineLengthOf(a, tail);
    assert s[2..2 + |a|] == a;
    assert s[3 + |a|..] == tail;
  }

  lemma {:induction false} ParseAnswerLines(answers: seq<string>, rest: string)
    requires forall k :: 0 <= k < |answers| ==> NoNewline(answers[k])
    requires !StartsWith(rest, "- ")
    ensures ParseAnswers(AnswerLines(answers) + rest) == Some((answers, rest))
  {
    if answers == [] {
      assert AnswerLines(answers) == [];
      assert AnswerLines(answers) + rest == rest;
    } else {
      AnswerLinesCons(answers);
      var tail := AnswerLines(answers[1..]) + rest;
      assert AnswerLines(answers) + rest == "- " + answers[0] + "\n" + tail;
      ParseAnswerStep(answers[0], tail);
      ParseAnswerLines(answers[1..], rest);
      assert [answers[0]] + answers[1..] == answers;
    }
  }

  /** Reading the heading of a response block and whatever follows it. */
  lemma ParseResponseStep(q: string, body: string)
    requires NoNewline(q)
    ensures StartsWith("### " + q + "\n\n" + body, "### ")
    ensures ParseResponse("### " + q + "\n\n" + body)
         == match ParseAnswers(body)
            case None => None
            case Some((answers, rest)) =>
              if StartsWith(rest, "\n") then Some((BrainstormResponse(q, answers), rest[1..])) else None
  {
    var s := "### " + q + "\n\n" + body;
    assert s[..4] == "### ";
    assert s[4..] == q + "\n" + ("\n" + body);
    LineLengthOf(q, "\n" + body);
    assert s[4..4 + |q|] == q;
    assert s[5 + |q|] == '\n';
    assert s[6 + |q|..] == body;
  }

  lemma ParseResponseBlock(response: BrainstormResponse, rest: string)
    requires SingleLine(response)
    ensures StartsWith(ResponseBlock(response) + rest, "### ")
    ensures ParseResponse(ResponseBlock(response) + rest) == Some((response, rest))
  {
    var body := AnswerLines(response.answers) + ("\n" + rest);
    assert ResponseBlock(response) + rest == "### " + response.question + "\n\n" + body;
    ParseResponseStep(response.question, body);
    StartsWithFirst("\n" + rest, "- ");
    ParseAnswerLines(response.answers, "\n" + rest);
    assert ("\n" + rest)[1..] == rest;
  }

  /** The blocks of a list of responses, and what follows them: the first response's block, then the rest. */
  lemma ResponseBlocksCons(responses: seq<BrainstormResponse>, rest: string)
    requires responses != []
    ensures ResponseBlocks(responses) + rest == ResponseBlock(responses[0]) + (ResponseBlocks(responses[1..]) + rest)
  {
    var blocks := ResponseBlockList(responses);
    FlattenCons(blocks);
    assert blocks[1..] == ResponseBlockList(responses[1..]);
  }

  /** A block that reads as one response, in front of text that reads as responses. */
  lemma ParseResponsesCons(block: string, tail: string, response: BrainstormResponse,
                           responses: seq<BrainstormResponse>, rest: string)
    requires StartsWith(block + tail, "### ")
    requires ParseResponse(block + tail) == Some((response, tail))
    requires ParseResponses(tail) == Some((responses, rest))
    ensures ParseResponses(block + tail) == Some(([response] + responses, rest))
  {
  }

  /** The step of ParseResponseBlocks: one more block in front of blocks that are read back. */
  lemma ParseResponseBlocksStep(responses: seq<BrainstormResponse>, rest: string)
    requires responses != [] && SingleLine(responses[0])
    requires ParseResponses(ResponseBlocks(responses[1..]) + rest) == Some((responses[1..], rest))
    ensures ParseResponses(ResponseBlocks(responses) + rest) == Some((responses, rest))
  {
    var block := ResponseBlock(responses[0]);
    var tail := ResponseBlocks(responses[1..]) + rest;
    ResponseBlocksCons(responses, rest);
    ParseResponseBlock(responses[0], tail);
    ParseResponsesCons(block, tail, responses[0], responses[1..], rest);
    assert [responses[0]] + responses[1..] == responses;
  }

  lemma {:induction false} ParseResponseBlocks(responses: seq<BrainstormResponse>, rest: string)
    requires AllSingleLine(responses)
    requires !StartsWith(rest, "### ")
    ensures ParseResponses(ResponseBlocks(responses) + rest) == Some((responses, rest))
  {
    if responses == [] {
      assert ResponseBlocks(responses) == [];
      assert ResponseBlocks(responses) + rest == rest;
    } else {
      ParseResponseBlocks(responses[1..], rest);
      ParseResponseBlocksStep(responses, rest);
    }
  }

  lemma StartsWithFirst(s: string, prefix: string)
    requires s != [] && prefix != [] && s[0] != prefix[0]
    ensures !StartsWith(s, prefix)
  {
  }

  lemma ResponsesTextFromCons(all: seq<seq<BrainstormResponse>>, first: nat)
    requires |all| >= 2
    ensures ResponsesTextFrom(all, first)
         == ParticipantHeader(first) + (ResponseBlocks(all[0]) + ("\n\n" + ResponsesTextFrom(all[1..], first + 1)))
  {
    var blocks := ParticipantBlockList(all, first);
    assert blocks[1..] == ParticipantBlockList(all[1..], first + 1);
  }

  /** One participant's block, then the separator and the text that follows it. */
  lemma ParseParticipantStep(responses: seq<BrainstormResponse>, first: nat, rest: string)
    requires AllSingleLine(responses)
    requires rest == [] || StartsWith(rest, "\n\n")
    ensures ParseParticipants(ParticipantHeader(first) + (ResponseBlocks(responses) + rest), first)
         == if rest == [] then Some([responses])
            else match ParseParticipants(rest[2..], first + 1)
                 case None => None
                 case Some(others) => Some([responses] + others)
  {
    var header := ParticipantHeader(first);
    var s := header + (ResponseBlocks(responses) + rest);
    assert s[|header|..] == ResponseBlocks(responses) + rest;
    if rest != [] {
      StartsWithFirst(rest, "### ");
    }
    ParseResponseBlocks(responses, rest);
  }

  /** The step of ParseParticipantBlocks: one more participant in front of participants that are read back. */
  lemma ParseParticipantBlocksStep(all: seq<seq<BrainstormResponse>>, first: nat)
    requires |all| >= 2 && AllSingleLine(all[0])
    requires ParseParticipants(ResponsesTextFrom(all[1..], first + 1), first + 1) == Some(all[1..])
    ensures ParseParticipants(ResponsesTextFrom(all, first), first) == Some(all)
  {
    var others := ResponsesTextFrom(all[1..], first + 1);
    ResponsesTextFromCons(all, first);
    ParseParticipantStep(all[0], first, "\n\n" + others);
    assert ("\n\n" + others)[2..] == others;
    assert [all[0]] + all[1..] == all;
  }

  lemma {:induction false} ParseParticipantBlocks(all: seq<seq<BrainstormResponse>>, first: nat)
    requires all != []
    requires forall i :: 0 <= i < |all| ==> AllSingleLine(all[i])
    ensures ParseParticipants(ResponsesTextFrom(all, first), first) == Some(all)
  {
    if |all| == 1 {
      assert ResponsesTextFrom(all, first) == ParticipantHeader(first) + (ResponseBlocks(all[0]) + []);
      ParseParticipantStep(all[0], first, []);
      assert [all[0]] == all;
    } else {
      ParseParticipantBlocks(all[1..], first + 1);
      ParseParticipantBlocksStep(all, first);
    }
  }

  /**
   * The text sent to the final synthesizer determines every participant's
   * responses, in order, when no question or answer contains a line break.
   */
  lemma ResponsesTextRoundTrip(all: seq<seq<BrainstormResponse>>)
    requires forall i :: 0 <= i < |all| ==> AllSingleLine(all[i])
    ensures ParseResponsesText(ResponsesText(all)) == Some(all)
  {
    if all != [] {
      ParseParticipantBlocks(all, 0);
      assert StartsWith(ResponsesText(all), ParticipantHeader(0));
    }
  }
}
