/**
 * Sending the tokens to the gameboard (`post_submission`): the JSON payload is
 * built by string concatenation and sent up to four times, with the verb held
 * in `globals.grading_verb`. The gameboard's replies are an input: each request
 * consumes the next reply, and a missing reply counts as a raised exception.
 */
module Submission {
  import opened Dicts
  import opened AppGlobals

  // ---------------------------------------------------------------------------
  // The payload

  function PayloadHead(id: string): string {
    "{\"id\":\"" + id + "\",\"sectionIndex\":0,\"questions\":["
  }

  function AnswerObject(token: string): string {
    "{\"answer\":\"" + token + "\"}"
  }

  /** Every token as `{"answer":"<token>"},`, in dict order. */
  function Answers(tokens: seq<string>): string {
    if tokens == [] then []
    else Answers(tokens[..|tokens| - 1]) + AnswerObject(tokens[|tokens| - 1]) + ","
  }

  /** The payload: the head and the answers, the last character dropped, then `]}`. */
  function PayloadText(id: string, tokens: seq<string>): string {
    var s := PayloadHead(id) + Answers(tokens);
    s[..|s| - 1] + "]}"
  }

  /** The answer objects separated by commas. */
  function AnswerList(tokens: seq<string>): string
    requires tokens != []
  {
    if |tokens| == 1 then AnswerObject(tokens[0])
    else AnswerList(tokens[..|tokens| - 1]) + "," + AnswerObject(tokens[|tokens| - 1])
  }

  lemma {:induction false} AnswersTrailingComma(tokens: seq<string>)
    requires tokens != []
    ensures Answers(tokens) == AnswerList(tokens) + ","
  {
    var init := tokens[..|tokens| - 1];
    if |tokens| == 1 {
      assert init == [];
    } else {
      AnswersTrailingComma(init);
    }
  }

  /** With tokens, the payload is a JSON object listing one answer per token. */
  lemma PayloadWithTokens(id: string, tokens: seq<string>)
    requires tokens != []
    ensures PayloadText(id, tokens) == PayloadHead(id) + AnswerList(tokens) + "]}"
  {
    AnswersTrailingComma(tokens);
    var s := PayloadHead(id) + Answers(tokens);
    assert s == (PayloadHead(id) + AnswerList(tokens)) + ",";
    assert s[..|s| - 1] == PayloadHead(id) + AnswerList(tokens);
  }

  /** Without tokens the dropped character is the '[' that opens the list. */
  lemma PayloadWithoutTokens(id: string)
    ensures PayloadText(id, []) == "{\"id\":\"" + id + "\",\"sectionIndex\":0,\"questions\":]}"
  {
    var s := PayloadHead(id);
    assert s[..|s| - 1] == "{\"id\":\"" + id + "\",\"sectionIndex\":0,\"questions\":";
  }

  lemma AnswersStep(head: string, vals: seq<string>, i: nat)
    requires i < |vals|
    ensures head + Answers(vals[..i]) + AnswerObject(vals[i]) + "," == head + Answers(vals[..i + 1])
  {
    assert vals[..i + 1][..i] == vals[..i];
    var a := Answers(vals[..i]);
    var o := AnswerObject(vals[i]);
    assert Answers(vals[..i + 1]) == a + o + ",";
    assert head + (a + o + ",") == head + a + o + ",";
  }

  /** The payload-building loop of `post_submission`. */
  method BuildPayload(id: string, tokens: Dict<string>) returns (payload: string)
    ensures payload == PayloadText(id, Values(tokens))
  {
    var vals := Values(tokens);
    var s := PayloadHead(id);
    var i := 0;
    while i < |vals|
      invariant 0 <= i <= |vals|
      invariant s == PayloadHead(id) + Answers(vals[..i])
    {
      AnswersStep(PayloadHead(id), vals, i);
      s := s + AnswerObject(vals[i]) + ",";
      i := i + 1;
    }
    assert vals[..i] == vals;
    payload := s[..|s| - 1] + "]}";
  }

  // ---------------------------------------------------------------------------
  // The retry loop

  /** What a request to the gameboard came back with. */
  datatype Reply = Status(code: int) | Raised

  function Next(replies: seq<Reply>): Reply {
    if replies == [] then Raised else replies[0]
  }

  function Rest(replies: seq<Reply>): seq<Reply> {
    if replies == [] then [] else replies[1..]
  }

  /** One pass of the loop body: the verbs sent, whether a 200 came back, the verb after. */
  datatype Attempt = Attempt(delivered: bool, verb: string, replies: seq<Reply>, sent: seq<string>)

  function PutOnce(replies: seq<Reply>, sent: seq<string>): Attempt {
    var r := Next(replies);
    Attempt(r == Status(200), "PUT", Rest(replies), sent + ["PUT"])
  }

  /**
   * One attempt. `on405` is the verb assigned after a 405 reply to a POST;
   * a POST that raises skips the PUT branch.
   */
  function TryOnce(verb: string, replies: seq<Reply>, on405: string): Attempt {
    if verb == "POST" then
      var r := Next(replies);
      if r.Raised? then Attempt(false, verb, Rest(replies), ["POST"])
      else if r.code == 200 then Attempt(true, verb, Rest(replies), ["POST"])
      else
        var v := if r.code == 405 then on405 else verb;
        if v == "PUT" then PutOnce(Rest(replies), ["POST"]) else Attempt(false, v, Rest(replies), ["POST"])
    else if verb == "PUT" then PutOnce(replies, [])
    else Attempt(false, verb, replies, [])
  }

  /** At most `left` attempts, stopping at the first 200: (delivered, verb after, verbs sent). */
  function Submit(verb: string, replies: seq<Reply>, left: nat, on405: string): (bool, string, seq<string>)
    decreases left
  {
    if left == 0 then (false, verb, [])
    else
      var a := TryOnce(verb, replies, on405);
      if a.delivered then (true, a.verb, a.sent)
      else
        var s := Submit(a.verb, a.replies, left - 1, on405);
        (s.0, s.1, a.sent + s.2)
  }

  /**
   * The verb `post_submission` assigns after a 405 reply to a POST. The log
   * line beside the assignment announces a change to PUT, but the value
   * assigned is "POST" (see `SubmitAsWrittenStaysPost`).
   */
  const VERB_AFTER_405: string := "POST"

  /** One pass of the `while attempts < 4` body, up to its `return` or `sleep(1)`. */
  method AttemptOnce(g: Globals, replies: seq<Reply>) returns (delivered: bool, rest: seq<Reply>, sent: seq<string>)
    modifies g`gradingVerb
    ensures Attempt(delivered, g.gradingVerb, rest, sent) == TryOnce(old(g.gradingVerb), replies, VERB_AFTER_405)
  {
    rest := replies;
    sent := [];
    delivered := false;
    var raised := false;
    if g.gradingVerb == "POST" {
      var r := Next(rest);
      rest := Rest(rest);
      sent := sent + ["POST"];
      if r.Raised? {
        raised := true;
      } else if r.code == 200 {
        return true, rest, sent;
      } else if r.code == 405 {
        g.gradingVerb := VERB_AFTER_405;
      }
    }
    if !raised && g.gradingVerb == "PUT" {
      var r := Next(rest);
      rest := Rest(rest);
      sent := sent + ["PUT"];
      delivered := r == Status(200);
    }
  }

  /**
   * `post_submission(tokens)`: at most four attempts, a 405 reply to a POST
   * re-assigning `VERB_AFTER_405`; `sent` lists the verbs of the requests
   * made, in order. `fatal_error` ends false on a 200 and true after four
   * failed attempts.
   */
  method PostSubmission(g: Globals, tokens: Dict<string>, replies: seq<Reply>) returns (payload: string, sent: seq<string>)
    modifies g`gradingVerb, g`fatalError
    ensures payload == PayloadText(g.challengeId, Values(tokens))
    ensures var s := Submit(old(g.gradingVerb), replies, 4, VERB_AFTER_405);
      sent == s.2 && g.gradingVerb == s.1 && g.fatalError == !s.0
  {
    payload := BuildPayload(g.challengeId, tokens);
    sent := [];
    var rs := replies;
    var attempts := 0;
    assert sent + Submit(g.gradingVerb, rs, 4, VERB_AFTER_405).2 == Submit(g.gradingVerb, rs, 4, VERB_AFTER_405).2;
    while attempts < 4
      invariant 0 <= attempts <= 4
      invariant var s := Submit(g.gradingVerb, rs, 4 - attempts, VERB_AFTER_405);
        Submit(old(g.gradingVerb), replies, 4, VERB_AFTER_405) == (s.0, s.1, sent + s.2)
    {
      var delivered, rest, step := AttemptOnce(g, rs);
      ghost var before := sent;
      sent := sent + step;
      if delivered {
        g.fatalError := false;
        return;
      }
      ghost var s1 := Submit(g.gradingVerb, rest, 4 - attempts - 1, VERB_AFTER_405);
      assert before + (step + s1.2) == sent + s1.2;
      attempts := attempts + 1;
      rs := rest;
    }
    g.fatalError := true;
  }

  // ---------------------------------------------------------------------------
  // Properties of the retry loop

  /** At most four attempts of at most two requests each. */
  lemma {:induction false} SubmitBound(verb: string, replies: seq<Reply>, left: nat, on405: string)
    ensures |Submit(verb, replies, left, on405).2| <= 2 * left
    decreases left
  {
    if left > 0 {
      SubmitBound(TryOnce(verb, replies, on405).verb, TryOnce(verb, replies, on405).replies, left - 1, on405);
    }
  }

  lemma TryOnceReplies(verb: string, replies: seq<Reply>, on405: string)
    ensures var a := TryOnce(verb, replies, on405);
      (forall r :: r in a.replies ==> r in replies) && (a.delivered ==> Status(200) in replies)
  {
  }

  /** Nothing is delivered unless the gameboard answers some request with 200. */
  lemma {:induction false} NoOkNoDelivery(verb: string, replies: seq<Reply>, left: nat, on405: string)
    requires Status(200) !in replies
    ensures !Submit(verb, replies, left, on405).0
    decreases left
  {
    if left > 0 {
      var a := TryOnce(verb, replies, on405);
      TryOnceReplies(verb, replies, on405);
      NoOkNoDelivery(a.verb, a.replies, left - 1, on405);
    }
  }

  /** A first reply of 200 ends the loop after one request. */
  lemma FirstOkDelivers(verb: string, replies: seq<Reply>, left: nat, on405: string)
    requires verb == "POST" || verb == "PUT"
    requires left > 0 && replies != [] && replies[0] == Status(200)
    ensures Submit(verb, replies, left, on405) == (true, verb, [verb])
  {
    assert [] + ["PUT"] == ["PUT"];
  }

  /** Once the verb is PUT every later request is a PUT. */
  lemma {:induction false} PutStaysPut(replies: seq<Reply>, left: nat, on405: string)
    ensures var s := Submit("PUT", replies, left, on405);
      s.1 == "PUT" && forall i :: 0 <= i < |s.2| ==> s.2[i] == "PUT"
    decreases left
  {
    if left > 0 {
      PutStaysPut(Rest(replies), left - 1, on405);
    }
  }

  /**
   * As written, a 405 re-assigns "POST": starting from POST the loop never
   * sends a PUT, whatever the gameboard replies.
   */
  lemma {:induction false} SubmitAsWrittenStaysPost(replies: seq<Reply>, left: nat)
    ensures var s := Submit("POST", replies, left, "POST");
      s.1 == "POST" && forall i :: 0 <= i < |s.2| ==> s.2[i] == "POST"
    decreases left
  {
    if left > 0 {
      var a := TryOnce("POST", replies, "POST");
      assert a.verb == "POST" && a.sent == ["POST"];
      SubmitAsWrittenStaysPost(a.replies, left - 1);
    }
  }

  /**
   * As written, the loop ends with the verb it started with, whatever the
   * replies: a 405 re-assigns "POST" to a POST (see `SubmitAsWrittenStaysPost`).
   */
  lemma {:induction false} SubmitKeepsVerb(verb: string, replies: seq<Reply>, left: nat)
    ensures Submit(verb, replies, left, VERB_AFTER_405).1 == verb
    decreases left
  {
    if left > 0 {
      var a := TryOnce(verb, replies, VERB_AFTER_405);
      assert a.verb == verb;
      SubmitKeepsVerb(verb, a.replies, left - 1);
    }
  }

  /** A grader that answers POST with 405 gets every later request as a PUT. */
  lemma SubmitSwitchesToPut(rest: seq<Reply>, left: nat)
    requires left > 0
    ensures var s := Submit("POST", [Status(405)] + rest, left, "PUT");
      |s.2| >= 2 && s.2[0] == "POST" && s.2[1] == "PUT" && s.1 == "PUT"
      && (forall i :: 1 <= i < |s.2| ==> s.2[i] == "PUT")
      && (rest != [] && rest[0] == Status(200) ==> s.0 && |s.2| == 2)
  {
    var a := TryOnce("POST", [Status(405)] + rest, "PUT");
    assert Rest([Status(405)] + rest) == rest;
    assert a == PutOnce(rest, ["POST"]);
    if !a.delivered {
      PutStaysPut(a.replies, left - 1, "PUT");
    }
  }
}
