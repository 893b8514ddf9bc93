/**
 * Grading in the legacy server: `do_grade` (run the script, parse, default
 * every part, read tokens), `read_token`, `done_grading` and the gameboard
 * submission loop `post_submission`. The script run, the token lookups and
 * the gameboard's replies are parameters; `sleep` is left out.
 */
module LegacyGrading {
  import opened Outcomes
  import opened Text
  import opened Dicts
  import opened Protocol
  import opened AppGlobals
  import opened Submission
  import opened Grading
  import opened Cron
  import opened LegacyConfig

  // ---------------------------------------------------------------------------
  // read_token

  /** The legacy reader knows two places: guestinfo, and token files for any other setting. */
  function LegacySource(src: TokenSource): (r: TokenSource)
    ensures r.location in VALID_TOKEN_LOCATIONS
    ensures r.location == "guestinfo" <==> src.location == "guestinfo"
  {
    src.(location := if src.location == "guestinfo" then "guestinfo" else "file")
  }

  /**
   * `read_token(part_name)`: a label that is not a part, or a part without
   * `token_name`, fails; guestinfo yields the stripped stdout unless stderr
   * says "no value"; otherwise `token_name` is a path and the token is its
   * first line.
   */
  lemma LegacyReadToken(parts: Dict<Part>, src: TokenSource, name: string)
    ensures var r := ReadToken(parts, LegacySource(src), name);
      (Get(parts, name).None? || Get(parts, name).value.tokenName.None? ==> r == (TOKEN_ERROR, true)) &&
      (Get(parts, name).Some? && Get(parts, name).value.tokenName.Some? ==>
        var v := Get(parts, name).value.tokenName.value;
        if src.location == "guestinfo" then
          r == (if Get(src.guestinfo, v).None? || NoValue(Get(src.guestinfo, v).value)
                then (TOKEN_ERROR, true) else (Strip(Get(src.guestinfo, v).value.0), false))
        else
          r == (if Get(src.files, v).None? then (TOKEN_ERROR, true) else (FirstLine(Get(src.files, v).value), false)))
  {
  }

  // ---------------------------------------------------------------------------
  // do_grade

  /** The modes of the configured parts, in order. */
  function PartModes(parts: Dict<Part>): (r: seq<string>)
    ensures |r| == |parts| && forall i :: 0 <= i < |parts| ==> r[i] == parts[i].1.mode
  {
    if parts == [] then [] else PartModes(parts[..|parts| - 1]) + [parts[|parts| - 1].1.mode]
  }

  /** Every configured part's mode is among them, so defaulting over them skips no part. */
  lemma PartModesCover(parts: Dict<Part>, k: string)
    requires Get(parts, k).Some?
    ensures Get(parts, k).value.mode in PartModes(parts)
  {
    var i :| 0 <= i < |parts| && parts[i] == (k, Get(parts, k).value);
    assert PartModes(parts)[i] == Get(parts, k).value.mode;
  }

  /** The parsed output with "Failed" for every part lacking a result, whatever its mode. */
  function LegacyResults(parts: Dict<Part>, run: ScriptRun): Dict<string> {
    Defaulted(ParseOutput(CronOutput(run).0), parts, PartModes(parts))
  }

  /**
   * One `do_grade()`: the results restricted to the parts, a token for every
   * parsed or defaulted label, and `fatal_error` for a non-zero exit or, when
   * posting to the gameboard, a failed token read.
   */
  function LegacyGradeOf(parts: Dict<Part>, graderPost: bool, src: TokenSource, run: ScriptRun): CronRun {
    var results := LegacyResults(parts, run);
    var t := CronTokens(parts, LegacySource(src), results);
    CronRun(Restrict(results, Keys(parts)), t.0, CronOutput(run).1 || (graderPost && t.1))
  }

  /**
   * `c` is what a cron pass leaves for the script run `run`: the results,
   * tokens and `fatal_error` flag `do_grade` computes from it. It is stated
   * for every run equal to `run`, so that the grading is only unfolded where
   * a proof asks for it; `LegacyRoundOfGrade` gives it in plain terms.
   */
  ghost predicate LegacyRoundOf(parts: Dict<Part>, post: bool, src: TokenSource, run: ScriptRun, c: CronRun) {
    forall r {:trigger LegacyGradeOf(parts, post, src, r)} :: r == run ==> c == LegacyGradeOf(parts, post, src, r)
  }

  lemma LegacyRoundOfGrade(parts: Dict<Part>, post: bool, src: TokenSource, run: ScriptRun, c: CronRun)
    ensures LegacyRoundOf(parts, post, src, run, c) <==> c == LegacyGradeOf(parts, post, src, run)
  {
  }

  /**
   * Every configured part, and nothing else, has a result: the parsed one
   * when the script printed it, "Failed" otherwise (a failed run prints
   * nothing that counts).
   */
  lemma LegacyEveryPartGraded(parts: Dict<Part>, graderPost: bool, src: TokenSource, run: ScriptRun, k: string)
    requires Valid(parts)
    ensures var parsed := ParseOutput(CronOutput(run).0);
      Get(LegacyGradeOf(parts, graderPost, src, run).results, k) ==
        if !HasKey(parts, k) then None
        else if HasKey(parsed, k) then Get(parsed, k)
        else Some("Failed")
  {
    var parsed := ParseOutput(CronOutput(run).0);
    RestrictGet(LegacyResults(parts, run), Keys(parts), k);
    DefaultedGet(parsed, parts, PartModes(parts), k);
    if HasKey(parts, k) {
      PartModesCover(parts, k);
    }
  }

  /**
   * Tokens cover every label of the defaulted results, parts or not, in
   * order: the token read for a status mentioning "success", the refusal
   * text otherwise.
   */
  lemma LegacyTokensExact(parts: Dict<Part>, graderPost: bool, src: TokenSource, run: ScriptRun)
    ensures var results := LegacyResults(parts, run);
      var t := LegacyGradeOf(parts, graderPost, src, run).tokens;
      |t| == |results| &&
      forall i :: 0 <= i < |results| ==>
        t[i] == (results[i].0, if ContainsLower(results[i].1, "success")
                               then ReadToken(parts, LegacySource(src), results[i].0).0 else NO_TOKEN)
  {
    CronTokensExact(parts, LegacySource(src), LegacyResults(parts, run));
  }

  /**
   * `fatal_error` after `do_grade()`: a non-zero exit, or a failed token read
   * for a "success" label while posting to the gameboard. An empty output is not
   * fatal.
   */
  lemma LegacyFatal(parts: Dict<Part>, graderPost: bool, src: TokenSource, run: ScriptRun)
    ensures LegacyGradeOf(parts, graderPost, src, run).fatal <==>
      run.exitCode != 0 ||
      (graderPost && exists r :: r in LegacyResults(parts, run) && FailedRead(parts, LegacySource(src), r))
  {
    CronTokensFailed(parts, LegacySource(src), LegacyResults(parts, run));
  }

  /** The token loop of `do_grade`. */
  method LegacyTokenLoop(g: LegacyGlobals, results: Dict<string>, src: TokenSource) returns (tokens: Dict<string>)
    modifies g`fatalError
    ensures var t := CronTokens(g.gradingParts, LegacySource(src), results);
      tokens == t.0 && g.fatalError == (old(g.fatalError) || (g.GraderPost() && t.1))
  {
    var from := LegacySource(src);
    tokens := [];
    var failed := false;
    var i := 0;
    while i < |results|
      invariant 0 <= i <= |results|
      invariant (tokens, failed) == CronTokens(g.gradingParts, from, results[..i])
      invariant g.fatalError == (old(g.fatalError) || (g.GraderPost() && failed))
    {
      var (key, value) := results[i];
      assert results[..i + 1][..i] == results[..i];
      var t := ("", false);
      if ContainsLower(value, "success") {
        t := ReadToken(g.gradingParts, from, key);
      } else {
        t := (NO_TOKEN, false);
      }
      if t.1 && g.GraderPost() {
        g.fatalError := true;
      }
      assert results[..i + 1][i] == (key, value);
      tokens := tokens + [(key, t.0)];
      failed := failed || t.1;
      i := i + 1;
    }
    assert results[..i] == results;
  }

  /** `do_grade(*args)`, the script's run with those arguments given as `run`. */
  method LegacyDoGrade(g: LegacyGlobals, run: ScriptRun, src: TokenSource) returns (endResults: Dict<string>, tokens: Dict<string>)
    modifies g`fatalError
    ensures LegacyRoundOf(g.gradingParts, g.GraderPost(), src, run, CronRun(endResults, tokens, g.fatalError))
  {
    g.fatalError := false;
    var out := CronOutput(run);
    if out.1 {
      g.fatalError := true;
    }
    var results := ReadResults(out.0);
    results := DefaultParts(results, g.gradingParts, PartModes(g.gradingParts));
    endResults := Restrict(results, Keys(g.gradingParts));
    tokens := LegacyTokenLoop(g, results, src);
    LegacyRoundOfGrade(g.gradingParts, g.GraderPost(), src, run, CronRun(endResults, tokens, g.fatalError));
  }

  // ---------------------------------------------------------------------------
  // post_submission

  /**
   * One pass of the legacy loop body. Only a POST is ever sent: after any
   * reply but 200 the test on line 174 names the undefined `gloabls`, and
   * the `NameError` goes to the `except`; a verb other than POST reaches
   * that test at once. A 405 re-assigns "POST".
   */
  function LegacyTryOnce(verb: string, replies: seq<Reply>): Attempt {
    if verb == "POST" then Attempt(Next(replies) == Status(200), "POST", Rest(replies), ["POST"])
    else Attempt(false, verb, replies, [])
  }

  /** At most `left` attempts, stopping at the first 200: (delivered, verb after, verbs sent). */
  function LegacySubmit(verb: string, replies: seq<Reply>, left: nat): (bool, string, seq<string>)
    decreases left
  {
    if left == 0 then (false, verb, [])
    else
      var a := LegacyTryOnce(verb, replies);
      if a.delivered then (true, a.verb, a.sent)
      else
        var s := LegacySubmit(a.verb, a.replies, left - 1);
        (s.0, s.1, a.sent + s.2)
  }

  /**
   * The undefined name changes nothing observable: since a 405 re-assigns
   * "POST", the current loop as written never reaches its PUT branch
   * either, and both send the same requests with the same outcome.
   */
  lemma {:induction false} LegacyMatchesAsWritten(replies: seq<Reply>, left: nat)
    ensures LegacySubmit("POST", replies, left) == Submit("POST", replies, left, "POST")
    decreases left
  {
    if left > 0 {
      var a := LegacyTryOnce("POST", replies);
      assert TryOnce("POST", replies, "POST") == a;
      LegacyMatchesAsWritten(a.replies, left - 1);
    }
  }

  /**
   * From POST, each attempt sends one POST and consumes one reply: the
   * submission is delivered iff one of the first `left` replies is 200, the
   * loop stops right after the first 200, and otherwise makes all `left`
   * attempts.
   */
  lemma LegacySubmitCount(replies: seq<Reply>, left: nat)
    ensures var s := LegacySubmit("POST", replies, left);
      s.1 == "POST" && (forall i :: 0 <= i < |s.2| ==> s.2[i] == "POST") &&
      (s.0 <==> exists i :: 0 <= i < left && i < |replies| && replies[i] == Status(200)) &&
      (s.0 ==> 0 < |s.2| <= |replies| && replies[|s.2| - 1] == Status(200) &&
               forall i :: 0 <= i < |s.2| - 1 ==> replies[i] != Status(200)) &&
      (!s.0 ==> |s.2| == left)
  {
    LegacySubmitShape(replies, left);
    LegacySubmitDelivery(replies, left);
  }

  /** One attempt from POST: a 200 ends the loop, anything else leaves `left - 1` attempts. */
  lemma PostStep(replies: seq<Reply>, left: nat)
    requires 0 < left
    ensures var s := LegacySubmit("POST", replies, left);
      var t := LegacySubmit("POST", Rest(replies), left - 1);
      s == if Next(replies) == Status(200) then (true, "POST", ["POST"]) else (t.0, t.1, ["POST"] + t.2)
  {
  }

  /** Every attempt from POST sends POST and stays on POST. */
  lemma {:induction false} LegacySubmitShape(replies: seq<Reply>, left: nat)
    ensures var s := LegacySubmit("POST", replies, left);
      s.1 == "POST" && (forall i :: 0 <= i < |s.2| ==> s.2[i] == "POST") &&
      (s.0 ==> 0 < |s.2|) && (!s.0 ==> |s.2| == left)
    decreases left
  {
    if left > 0 {
      PostStep(replies, left);
      LegacySubmitShape(Rest(replies), left - 1);
    }
  }

  /** Delivery happens exactly at the first 200 among the first `left` replies. */
  lemma {:induction false} LegacySubmitDelivery(replies: seq<Reply>, left: nat)
    ensures var s := LegacySubmit("POST", replies, left);
      (s.0 <==> exists i :: 0 <= i < left && i < |replies| && replies[i] == Status(200)) &&
      (s.0 ==> 0 < |s.2| <= |replies| && replies[|s.2| - 1] == Status(200) &&
               forall i :: 0 <= i < |s.2| - 1 ==> replies[i] != Status(200))
    decreases left
  {
    if left > 0 {
      PostStep(replies, left);
      var s := LegacySubmit("POST", replies, left);
      if Next(replies) != Status(200) {
        var rest := Rest(replies);
        LegacySubmitDelivery(rest, left - 1);
        LegacySubmitShape(rest, left - 1);
        if replies != [] {
          assert forall i :: 0 <= i < |rest| ==> rest[i] == replies[i + 1];
          if s.0 {
            var i :| 0 <= i < left - 1 && i < |rest| && rest[i] == Status(200);
            assert replies[i + 1] == Status(200);
          }
          if i :| 0 <= i < left && i < |replies| && replies[i] == Status(200) {
            assert i != 0;
            assert rest[i - 1] == Status(200);
          }
        }
      }
    }
  }

  /** The first attempt of a submission, and what remains after it. */
  lemma LegacySubmitStep(verb: string, replies: seq<Reply>, left: nat)
    requires 0 < left
    ensures var a := LegacyTryOnce(verb, replies);
      var s := LegacySubmit(a.verb, a.replies, left - 1);
      LegacySubmit(verb, replies, left) == if a.delivered then (true, a.verb, a.sent) else (s.0, s.1, a.sent + s.2)
  {
  }

  /** One pass of the `while attempts < 4` body, up to its `return` or `sleep(1)`. */
  method LegacyAttemptOnce(g: LegacyGlobals, replies: seq<Reply>) returns (delivered: bool, rest: seq<Reply>, sent: seq<string>)
    modifies g`gradingVerb
    ensures Attempt(delivered, g.gradingVerb, rest, sent) == LegacyTryOnce(old(g.gradingVerb), replies)
  {
    rest := replies;
    sent := [];
    delivered := false;
    if g.gradingVerb == "POST" {
      var r := Next(rest);
      rest := Rest(rest);
      sent := sent + ["POST"];
      if r == Status(200) {
        return true, rest, sent;
      } else if r.Status? && r.code == 405 {
        g.gradingVerb := "POST";
      }
    }
    // The `gloabls` test raises here; the `except` swallows it.
  }

  /** One attempt of `left` remaining, tied to what the remaining submission does. */
  method LegacySubmitAttempt(g: LegacyGlobals, replies: seq<Reply>, left: nat) returns (delivered: bool, rest: seq<Reply>, sent: seq<string>)
    requires 0 < left
    modifies g`gradingVerb
    ensures var s := LegacySubmit(g.gradingVerb, rest, left - 1);
      LegacySubmit(old(g.gradingVerb), replies, left) == if delivered then (true, g.gradingVerb, sent) else (s.0, s.1, sent + s.2)
  {
    LegacySubmitStep(g.gradingVerb, replies, left);
    delivered, rest, sent := LegacyAttemptOnce(g, replies);
  }

  /**
   * `post_submission(tokens)`: `sent` lists the verbs of the requests made,
   * in order; `fatal_error` ends false on a 200 and true after four failed
   * attempts.
   */
  method LegacyPostSubmission(g: LegacyGlobals, tokens: Dict<string>, replies: seq<Reply>) returns (payload: string, sent: seq<string>)
    modifies g`gradingVerb, g`fatalError
    ensures payload == PayloadText(g.challengeId, Values(tokens))
    ensures LegacySubmit(old(g.gradingVerb), replies, 4) == (!g.fatalError, g.gradingVerb, sent)
  {
    payload := BuildPayload(g.challengeId, tokens);
    sent := LegacySubmitLoop(g, replies, 4);
  }

  /** The `while attempts < limit` loop of `post_submission`. */
  method LegacySubmitLoop(g: LegacyGlobals, replies: seq<Reply>, limit: nat) returns (sent: seq<string>)
    modifies g`gradingVerb, g`fatalError
    ensures LegacySubmit(old(g.gradingVerb), replies, limit) == (!g.fatalError, g.gradingVerb, sent)
  {
    sent := [];
    var rs := replies;
    var attempts := 0;
    assert sent + LegacySubmit(g.gradingVerb, rs, limit).2 == LegacySubmit(g.gradingVerb, rs, limit).2;
    while attempts < limit
      invariant 0 <= attempts <= limit
      invariant var s := LegacySubmit(g.gradingVerb, rs, limit - attempts);
        LegacySubmit(old(g.gradingVerb), replies, limit) == (s.0, s.1, sent + s.2)
    {
      var delivered, rest, step := LegacySubmitAttempt(g, rs, limit - attempts);
      ghost var before := sent;
      sent := sent + step;
      if delivered {
        g.fatalError := false;
        return;
      }
      ghost var s1 := LegacySubmit(g.gradingVerb, rest, limit - attempts - 1);
      assert before + (step + s1.2) == sent + s1.2;
      attempts := attempts + 1;
      rs := rest;
    }
    assert sent + LegacySubmit(g.gradingVerb, rs, 0).2 == sent;
    g.fatalError := true;
  }

  // ---------------------------------------------------------------------------
  // done_grading

  /**
   * `done_grading`: the task's results and tokens become the shown ones and,
   * when posting to the gameboard, the tokens are submitted.
   */
  method LegacyDoneGrading(g: LegacyGlobals, results: Dict<string>, tokens: Dict<string>, replies: seq<Reply>)
    returns (sent: seq<string>)
    modifies g`results, g`tokens, g`gradingVerb, g`fatalError
    ensures g.results == Some(results) && g.tokens == Some(tokens)
    ensures g.GraderPost() ==> LegacySubmit(old(g.gradingVerb), replies, 4) == (!g.fatalError, g.gradingVerb, sent)
    ensures !g.GraderPost() ==> sent == [] && g.gradingVerb == old(g.gradingVerb) && g.fatalError == old(g.fatalError)
  {
    g.results := Some(results);
    g.tokens := Some(tokens);
    sent := [];
    if g.GraderPost() {
      var payload;
      payload, sent := LegacyPostSubmission(g, tokens, replies);
    }
  }
}
