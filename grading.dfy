/**
 * Manual grading (`do_grade`, `get_results`, `read_token`, `done_grading`).
 *
 * The grading script is a function from its invocation to its exit code and
 * stdout; the token sources (environment, guestinfo lookups, token files) are
 * inputs. An exception that escapes `do_grade` (including `sys.exit` from a
 * database helper) makes the grading future fail: that outcome is `Aborted`.
 */
module Grading {
  import opened Outcomes
  import opened Text
  import opened Dicts
  import opened Protocol
  import opened AppGlobals
  import opened Tracking
  import opened Submission

  const TOKEN_ERROR: string := "Unexpected error encountered. Contact an administrator."
  const NO_TOKEN: string := "You did not earn a token for this part"

  /** The modes whose answers are passed to the script: manual ones other than "button" and "upload". */
  const FORWARDED_MODES: seq<string> := ["text", "text_single"]

  lemma ForwardedModesAreManual()
    ensures forall m :: m in FORWARDED_MODES <==> m in MANUAL_MODE && m != "button" && m != "upload"
  {
  }

  // ---------------------------------------------------------------------------
  // The answers forwarded to the grading script

  /** `list.insert(i, x)`: an index past the end appends. */
  function InsertAt(xs: seq<(string, string)>, i: nat, x: (string, string)): (r: seq<(string, string)>)
    ensures |r| == |xs| + 1
    ensures var j := if i < |xs| then i else |xs|;
      r[j] == x && r[..j] == xs[..j] && r[j + 1..] == xs[j..]
    ensures forall e :: e in r <==> e in xs || e == x
  {
    var j := if i < |xs| then i else |xs|;
    var r := xs[..j] + [x] + xs[j..];
    assert xs == xs[..j] + xs[j..];
    assert r[..j] == xs[..j] && r[j + 1..] == xs[j..];
    r
  }

  /** `int(ques[-1])`: `None` when the label is empty or does not end in a digit. */
  function IndexDigit(ques: string): (r: Option<nat>)
    ensures r.Some? <==> ques != [] && IsDigit(ques[|ques| - 1])
    ensures r.Some? ==> r.value < 10
  {
    if ques == [] || !IsDigit(ques[|ques| - 1]) then None else Some(DigitValue(ques[|ques| - 1]))
  }

  /** A key of the request that names a configured part with a valid mode. */
  predicate Forwardable(parts: Dict<Part>, ques: string) {
    Get(parts, ques).Some? && Get(parts, ques).value.mode in VALID_CONFIG_MODES
  }

  /** A key whose answer is passed to the grading script. */
  predicate IsForwarded(parts: Dict<Part>, ques: string) {
    Forwardable(parts, ques) && Get(parts, ques).value.mode in FORWARDED_MODES
  }

  function ForwardStep(acc: Option<seq<(string, string)>>, parts: Dict<Part>, e: (string, string)): Option<seq<(string, string)>> {
    if acc.None? || !Forwardable(parts, e.0) then acc
    else match IndexDigit(e.0)
      case None => None
      case Some(d) => if IsForwarded(parts, e.0) then Some(InsertAt(acc.value, d, e)) else acc
  }

  /**
   * `manual_grading_list` after the loop over the submitted answers; `None`
   * when `int(ques[-1])` raises for a forwardable key.
   */
  function ForwardList(args: Dict<string>, parts: Dict<Part>): Option<seq<(string, string)>> {
    if args == [] then Some([])
    else ForwardStep(ForwardList(args[..|args| - 1], parts), parts, args[|args| - 1])
  }

  lemma {:induction false} ForwardRaisedStays(args: Dict<string>, parts: Dict<Part>, k: nat)
    requires k <= |args| && ForwardList(args[..k], parts).None?
    ensures ForwardList(args, parts).None?
    decreases |args|
  {
    if k < |args| {
      var init := args[..|args| - 1];
      assert init[..k] == args[..k];
      ForwardRaisedStays(init, parts, k);
    } else {
      assert args[..k] == args;
    }
  }

  /** The loop of `do_grade` that builds `manual_grading_list`. */
  method Forward(args: Dict<string>, parts: Dict<Part>) returns (r: Option<seq<(string, string)>>)
    ensures r == ForwardList(args, parts)
  {
    var list: seq<(string, string)> := [];
    var i := 0;
    while i < |args|
      invariant 0 <= i <= |args|
      invariant ForwardList(args[..i], parts) == Some(list)
    {
      assert args[..i + 1][..i] == args[..i];
      var (ques, ans) := args[i];
      var part := Get(parts, ques);
      if part.Some? && part.value.mode in VALID_CONFIG_MODES {
        var index := IndexDigit(ques);
        if index.None? {
          ForwardRaisedStays(args, parts, i + 1);
          return None;
        }
        if part.value.mode in FORWARDED_MODES {
          list := InsertAt(list, index.value, (ques, ans));
        }
      }
      i := i + 1;
    }
    assert args[..i] == args;
    r := Some(list);
  }

  /** Grading stops with an exception exactly when a forwardable key does not end in a digit. */
  lemma {:induction false} ForwardRaises(args: Dict<string>, parts: Dict<Part>)
    ensures ForwardList(args, parts).None? <==>
      exists i :: 0 <= i < |args| && Forwardable(parts, args[i].0) && IndexDigit(args[i].0).None?
  {
    if args != [] {
      var init := args[..|args| - 1];
      ForwardRaises(init, parts);
      assert forall i :: 0 <= i < |init| ==> init[i] == args[i];
    }
  }

  /** The list holds exactly the submitted answers of text parts. */
  lemma {:induction false} ForwardMembers(args: Dict<string>, parts: Dict<Part>)
    requires ForwardList(args, parts).Some?
    ensures forall e :: e in ForwardList(args, parts).value <==> e in args && IsForwarded(parts, e.0)
  {
    if args != [] {
      var init := args[..|args| - 1];
      assert ForwardList(init, parts).Some?;
      ForwardMembers(init, parts);
      assert args == init + [args[|args| - 1]];
    }
  }

  lemma ValidInsert(xs: seq<(string, string)>, i: nat, x: (string, string))
    requires Valid(xs)
    requires forall e :: e in xs ==> e.0 != x.0
    ensures Valid(InsertAt(xs, i, x))
  {
    var r := InsertAt(xs, i, x);
    var j := if i < |xs| then i else |xs|;
    forall a, b | 0 <= a < b < |r|
      ensures r[a].0 != r[b].0
    {
      var ea := if a < j then xs[a] else if a == j then x else xs[a - 1];
      var eb := if b < j then xs[b] else if b == j then x else xs[b - 1];
      assert r[a] == ea by {
        if a < j { assert r[a] == r[..j][a]; } else if a > j { assert r[a] == r[j + 1..][a - j - 1]; }
      }
      assert r[b] == eb by {
        if b < j { assert r[b] == r[..j][b]; } else if b > j { assert r[b] == r[j + 1..][b - j - 1]; }
      }
    }
  }

  lemma {:induction false} ForwardValid(args: Dict<string>, parts: Dict<Part>)
    requires Valid(args) && ForwardList(args, parts).Some?
    ensures Valid(ForwardList(args, parts).value)
  {
    if args != [] {
      var init := args[..|args| - 1];
      var last := args[|args| - 1];
      assert ForwardList(init, parts).Some?;
      ForwardValid(init, parts);
      ForwardMembers(init, parts);
      forall e | e in ForwardList(init, parts).value
        ensures e.0 != last.0
      {
        var k :| 0 <= k < |init| && init[k] == e;
        assert args[k] == e;
      }
      if Forwardable(parts, last.0) && IsForwarded(parts, last.0) {
        ValidInsert(ForwardList(init, parts).value, IndexDigit(last.0).value, last);
      }
    }
  }

  /**
   * `grade_args`: the script is given the submitted answer of every text part
   * and nothing else, whatever order the list ended up in.
   */
  lemma GradeArgsAnswers(args: Dict<string>, parts: Dict<Part>, k: string)
    requires Valid(args) && ForwardList(args, parts).Some?
    ensures Get(FromPairs(ForwardList(args, parts).value), k) == if IsForwarded(parts, k) then Get(args, k) else None
  {
    var list := ForwardList(args, parts).value;
    ForwardValid(args, parts);
    FromPairsDistinct(list);
    ForwardMembers(args, parts);
    if IsForwarded(parts, k) && HasKey(args, k) {
      var v := Get(args, k).value;
      GetUnique(list, k, v);
    } else {
      forall i | 0 <= i < |list|
        ensures Keys(list)[i] != k
      {
        assert list[i] in list;
        if IsForwarded(parts, k) {
          PairKey(args, list[i]);
        }
      }
    }
  }

  // ---------------------------------------------------------------------------
  // Running the script and reading its results

  /** The arguments after the script path: the JSON answers (when any) and the current phase. */
  datatype Invocation = Invocation(answers: Dict<string>, phase: Option<string>)

  datatype ScriptRun = ScriptRun(exitCode: int, stdout: string)

  /** The stdout used, and whether the run sets `fatal_error`. */
  function ScriptOutput(run: ScriptRun): (r: (string, bool))
    ensures r.1 <==> run.exitCode != 0 || run.stdout == ""
    ensures r.1 ==> r.0 == ""
    ensures !r.1 ==> r.0 == run.stdout
  {
    if run.exitCode != 0 then ("", true)
    else (run.stdout, run.stdout == "")
  }

  /** Results for every part lacking one, as "Failed", when the part's mode is one of `modes`. */
  function Defaulted(results: Dict<string>, parts: Dict<Part>, modes: seq<string>): Dict<string> {
    if parts == [] then results
    else
      var prev := Defaulted(results, parts[..|parts| - 1], modes);
      var (key, part) := parts[|parts| - 1];
      if part.mode in modes && !HasKey(prev, key) then Put(prev, key, "Failed") else prev
  }

  /**
   * Existing results are kept, a part with one of `modes` and no result gets
   * "Failed", and nothing else is added.
   */
  lemma {:induction false} DefaultedGet(results: Dict<string>, parts: Dict<Part>, modes: seq<string>, k: string)
    requires Valid(parts)
    ensures Get(Defaulted(results, parts, modes), k) ==
      if HasKey(results, k) then Get(results, k)
      else if Get(parts, k).Some? && Get(parts, k).value.mode in modes then Some("Failed")
      else None
  {
    if parts != [] {
      var init := parts[..|parts| - 1];
      var (key, part) := parts[|parts| - 1];
      assert parts == init + [(key, part)];
      assert Valid(init);
      assert !HasKey(init, key) by {
        forall i | 0 <= i < |init|
          ensures Keys(init)[i] != key
        {
          assert init[i] == parts[i];
        }
      }
      DefaultedGet(results, init, modes, k);
      GetSnoc(init, key, part, k);
      GetPut(Defaulted(results, init, modes), key, "Failed", k);
    }
  }

  lemma {:induction false} DefaultedValid(results: Dict<string>, parts: Dict<Part>, modes: seq<string>)
    requires Valid(results)
    ensures Valid(Defaulted(results, parts, modes))
    ensures Keys(results) <= Keys(Defaulted(results, parts, modes))
  {
    if parts != [] {
      var prev := Defaulted(results, parts[..|parts| - 1], modes);
      DefaultedValid(results, parts[..|parts| - 1], modes);
      ValidPut(prev, parts[|parts| - 1].0, "Failed");
    }
  }

  /** The "ensure all grading parts have a result" loop. */
  method DefaultParts(results: Dict<string>, parts: Dict<Part>, modes: seq<string>) returns (r: Dict<string>)
    ensures r == Defaulted(results, parts, modes)
  {
    r := results;
    var i := 0;
    while i < |parts|
      invariant 0 <= i <= |parts|
      invariant r == Defaulted(results, parts[..i], modes)
    {
      assert parts[..i + 1][..i] == parts[..i];
      var (key, part) := parts[i];
      if part.mode in modes && !HasKey(r, key) {
        r := Put(r, key, "Failed");
      }
      i := i + 1;
    }
    assert parts[..i] == parts;
  }

  // ---------------------------------------------------------------------------
  // Committing the results to the question table

  /**
   * The loop of `update_db('q', k, f"{v}--{user_input}")` calls over the
   * results: the tables after it, and `false` when one of them exits.
   */
  function Commits(qs: seq<QuestionRow>, ans: seq<Answered>, results: Dict<string>, gradeArgs: Dict<string>,
                   now: string, cmi5: bool, parts: Dict<Part>): (seq<QuestionRow>, seq<Answered>, bool)
    decreases |results|
  {
    if results == [] then (qs, ans, true)
    else
      var (k, v) := results[0];
      match QuestionUpdate(qs, ans, k, v + "--" + Get(gradeArgs, k).GetOr(""), now, cmi5, parts)
      case None => (qs, ans, false)
      case Some(t) => Commits(t.0, t.1, results[1..], gradeArgs, now, cmi5, parts)
  }

  method Commit(reg: Registry, g: Globals, results: Dict<string>, gradeArgs: Dict<string>, now: string) returns (ok: bool)
    modifies reg`questions, reg`answered
    ensures (reg.questions, reg.answered, ok) ==
      Commits(old(reg.questions), old(reg.answered), results, gradeArgs, now, g.cmi5Enabled, g.gradingParts)
  {
    var i := 0;
    while i < |results|
      invariant 0 <= i <= |results|
      invariant Commits(old(reg.questions), old(reg.answered), results, gradeArgs, now, g.cmi5Enabled, g.gradingParts)
        == Commits(reg.questions, reg.answered, results[i..], gradeArgs, now, g.cmi5Enabled, g.gradingParts)
    {
      ok := CommitOne(reg, g, results, i, gradeArgs, now);
      if !ok {
        return;
      }
      i := i + 1;
    }
    ok := true;
  }

  /** One `update_db` call of the loop, for the result at `i`. */
  method CommitOne(reg: Registry, g: Globals, results: Dict<string>, i: nat, gradeArgs: Dict<string>, now: string)
    returns (ok: bool)
    requires i < |results|
    modifies reg`questions, reg`answered
    ensures Commits(old(reg.questions), old(reg.answered), results[i..], gradeArgs, now, g.cmi5Enabled, g.gradingParts) ==
      if ok then Commits(reg.questions, reg.answered, results[i + 1..], gradeArgs, now, g.cmi5Enabled, g.gradingParts)
      else (reg.questions, reg.answered, false)
  {
    CommitsStep(reg.questions, reg.answered, results, i, gradeArgs, now, g.cmi5Enabled, g.gradingParts);
    var (k, v) := results[i];
    ok := reg.UpdateQuestion(g, k, v + "--" + Get(gradeArgs, k).GetOr(""), now);
  }

  /** One step of `Commits`: the update for the result at `i`, then the results after it. */
  lemma CommitsStep(qs: seq<QuestionRow>, ans: seq<Answered>, results: Dict<string>, i: nat, gradeArgs: Dict<string>,
                    now: string, cmi5: bool, parts: Dict<Part>)
    requires i < |results|
    ensures var u := QuestionUpdate(qs, ans, results[i].0, results[i].1 + "--" + Get(gradeArgs, results[i].0).GetOr(""), now, cmi5, parts);
      Commits(qs, ans, results[i..], gradeArgs, now, cmi5, parts) ==
        if u.None? then (qs, ans, false) else Commits(u.value.0, u.value.1, results[i + 1..], gradeArgs, now, cmi5, parts)
  {
    assert results[i..][0] == results[i] && results[i..][1..] == results[i + 1..];
  }

  /** Rows keep their places and labels, and solved rows stay solved. */
  predicate Grows(qs: seq<QuestionRow>, after: seq<QuestionRow>) {
    |after| == |qs| && forall i :: 0 <= i < |qs| ==> after[i].name == qs[i].name && (qs[i].solved ==> after[i].solved)
  }

  lemma {:induction false} GrowsFind(qs: seq<QuestionRow>, after: seq<QuestionRow>, name: string)
    requires Grows(qs, after)
    ensures FindQuestion(after, name) == FindQuestion(qs, name)
  {
    if qs != [] {
      assert Grows(qs[1..], after[1..]);
      GrowsFind(qs[1..], after[1..], name);
    }
  }

  lemma {:induction false} CommitsGrow(qs: seq<QuestionRow>, ans: seq<Answered>, results: Dict<string>, gradeArgs: Dict<string>,
                                       now: string, cmi5: bool, parts: Dict<Part>)
    ensures Grows(qs, Commits(qs, ans, results, gradeArgs, now, cmi5, parts).0)
    decreases |results|
  {
    if results != [] {
      var (k, v) := results[0];
      var u := QuestionUpdate(qs, ans, k, v + "--" + Get(gradeArgs, k).GetOr(""), now, cmi5, parts);
      if u.Some? {
        UpdateSolves(qs, ans, k, v + "--" + Get(gradeArgs, k).GetOr(""), now, cmi5, parts);
        CommitsGrow(u.value.0, u.value.1, results[1..], gradeArgs, now, cmi5, parts);
      }
    }
  }

  lemma LowerSuccessExtends(v: string, rest: string)
    requires ContainsLower(v, "success")
    ensures ContainsLower(v + rest, "success")
  {
    LowerConcat(v, rest);
    ContainsLeft(Lower(v), Lower(rest), "success");
  }

  /** An update mentioning "success" leaves the question solved, and every row grows. */
  lemma UpdateSolves(qs: seq<QuestionRow>, ans: seq<Answered>, k: string, val: string, now: string, cmi5: bool, parts: Dict<Part>)
    requires QuestionUpdate(qs, ans, k, val, now, cmi5, parts).Some?
    ensures var t := QuestionUpdate(qs, ans, k, val, now, cmi5, parts).value;
      Grows(qs, t.0) && (ContainsLower(val, "success") ==> CheckDb(t.0, k) == Some(true))
  {
    var t := QuestionUpdate(qs, ans, k, val, now, cmi5, parts).value;
    var i := FindQuestion(qs, k).value;
    SolvedMonotone(qs[i], val, now);
    assert Grows(qs, t.0);
    GrowsFind(qs, t.0, k);
  }

  lemma CommitFirstSolves(qs: seq<QuestionRow>, ans: seq<Answered>, k: string, v: string, answer: string,
                          now: string, cmi5: bool, parts: Dict<Part>)
    requires QuestionUpdate(qs, ans, k, v + "--" + answer, now, cmi5, parts).Some?
    requires ContainsLower(v, "success")
    ensures var t := QuestionUpdate(qs, ans, k, v + "--" + answer, now, cmi5, parts).value;
      Grows(qs, t.0) && CheckDb(t.0, k) == Some(true)
  {
    LowerSuccessExtends(v, "--" + answer);
    assert v + ("--" + answer) == v + "--" + answer;
    UpdateSolves(qs, ans, k, v + "--" + answer, now, cmi5, parts);
  }

  /** After a commit that did not exit, every result mentioning "success" left its question solved. */
  lemma {:induction false} CommitSolves(qs: seq<QuestionRow>, ans: seq<Answered>, results: Dict<string>, gradeArgs: Dict<string>,
                                        now: string, cmi5: bool, parts: Dict<Part>, j: nat)
    requires Commits(qs, ans, results, gradeArgs, now, cmi5, parts).2
    requires j < |results| && ContainsLower(results[j].1, "success")
    ensures CheckDb(Commits(qs, ans, results, gradeArgs, now, cmi5, parts).0, results[j].0) == Some(true)
    decreases |results|
  {
    if j == 0 {
      CommitSolvesFirst(qs, ans, results, gradeArgs, now, cmi5, parts);
    } else {
      CommitsStep(qs, ans, results, 0, gradeArgs, now, cmi5, parts);
      var k := results[0].0;
      var t := QuestionUpdate(qs, ans, k, results[0].1 + "--" + Get(gradeArgs, k).GetOr(""), now, cmi5, parts).value;
      assert results[1..][j - 1] == results[j];
      CommitSolves(t.0, t.1, results[1..], gradeArgs, now, cmi5, parts, j - 1);
    }
  }

  lemma CommitSolvesFirst(qs: seq<QuestionRow>, ans: seq<Answered>, results: Dict<string>, gradeArgs: Dict<string>,
                          now: string, cmi5: bool, parts: Dict<Part>)
    requires Commits(qs, ans, results, gradeArgs, now, cmi5, parts).2
    requires results != [] && ContainsLower(results[0].1, "success")
    ensures CheckDb(Commits(qs, ans, results, gradeArgs, now, cmi5, parts).0, results[0].0) == Some(true)
  {
    CommitsStep(qs, ans, results, 0, gradeArgs, now, cmi5, parts);
    var (k, v) := results[0];
    var t := QuestionUpdate(qs, ans, k, v + "--" + Get(gradeArgs, k).GetOr(""), now, cmi5, parts).value;
    var final := Commits(t.0, t.1, results[1..], gradeArgs, now, cmi5, parts).0;
    CommitFirstSolves(qs, ans, k, v, Get(gradeArgs, k).GetOr(""), now, cmi5, parts);
    CommitsGrow(t.0, t.1, results[1..], gradeArgs, now, cmi5, parts);
    GrowsFind(t.0, final, k);
  }

  // ---------------------------------------------------------------------------
  // Tokens

  /**
   * Where tokens come from: the (cleaned) environment, the `vmtoolsd
   * info-get` outputs (stdout, stderr) per guestinfo key, and the token files.
   * A key missing from `guestinfo` or `files` is a lookup that raised.
   */
  datatype TokenSource = TokenSource(location: string, env: Dict<string>, guestinfo: Dict<(string, string)>, files: Dict<string>)

  /** `f.readline()`: up to and including the first newline. */
  function FirstLine(content: string): (r: string)
    ensures |r| <= |content| && r == content[..|r|]
    ensures '\n' !in content ==> r == content
    ensures '\n' in content ==> r != [] && r[|r| - 1] == '\n' && '\n' !in r[..|r| - 1]
  {
    match CharIndex(content, '\n')
    case None => content
    case Some(i) =>
      assert content[..i + 1][..i] == content[..i];
      content[..i + 1]
  }

  /**
   * `read_token(part_name)`: the token and whether reading it failed (which
   * sets `fatal_error` when posting to the gameboard). A location the reader does
   * not know yields Python's `None`, shown as "None".
   */
  function ReadToken(parts: Dict<Part>, src: TokenSource, name: string): (r: (string, bool))
    ensures r.1 ==> r.0 == TOKEN_ERROR
    ensures Get(parts, name).None? || Get(parts, name).value.tokenName.None? ==> r.1
    ensures src.location == "guestinfo" && !r.1 ==> Stripped(r.0)
    ensures src.location == "file" && !r.1 ==> forall i :: 0 <= i < |r.0| - 1 ==> r.0[i] != '\n'
    ensures src.location !in ["env", "guestinfo", "file"] && Get(parts, name).Some? && Get(parts, name).value.tokenName.Some? ==> r == ("None", false)
  {
    match Get(parts, name)
    case None => (TOKEN_ERROR, true)
    case Some(part) =>
      match part.tokenName
      case None => (TOKEN_ERROR, true)
      case Some(value) =>
        if src.location == "env" then
          var t := Get(src.env, value).GetOr("");
          if t == "" then (TOKEN_ERROR, true) else (t, false)
        else if src.location == "guestinfo" then
          match Get(src.guestinfo, value)
          case None => (TOKEN_ERROR, true)
          case Some(out) =>
            StrippedStrip(out.0);
            if ContainsLower(out.1, "no value") then (TOKEN_ERROR, true) else (Strip(out.0), false)
        else if src.location == "file" then
          match Get(src.files, value)
          case None => (TOKEN_ERROR, true)
          case Some(content) =>
            var line := FirstLine(content);
            assert forall i :: 0 <= i < |line| - 1 ==> line[i] == line[..|line| - 1][i];
            (line, false)
        else ("None", false)
  }

  /**
   * The token for one result: read when the result mentions "success" or the
   * question was solved before, the refusal text otherwise; `None` is the exit
   * `check_db` takes for a label without a row.
   */
  function TokenFor(qs: seq<QuestionRow>, parts: Dict<Part>, src: TokenSource, key: string, value: string): Option<(string, bool)> {
    if ContainsLower(value, "success") then Some(ReadToken(parts, src, key))
    else match CheckDb(qs, key)
      case None => None
      case Some(solved) => if solved then Some(ReadToken(parts, src, key)) else Some((NO_TOKEN, false))
  }

  /** Each result's label with its `TokenFor` outcome. */
  function TokenOutcomes(qs: seq<QuestionRow>, parts: Dict<Part>, src: TokenSource, results: Dict<string>)
    : (r: seq<(string, Option<(string, bool)>)>)
    ensures |r| == |results|
    ensures forall i :: 0 <= i < |results| ==> r[i] == (results[i].0, TokenFor(qs, parts, src, results[i].0, results[i].1))
  {
    seq(|results|, i requires 0 <= i < |results| => (results[i].0, TokenFor(qs, parts, src, results[i].0, results[i].1)))
  }

  /** The tokens so far, whether a read failed, and whether the loop exited. */
  datatype TokenRun = TokenRun(tokens: Dict<string>, failed: bool, exited: bool)

  /**
   * The token loop of `get_results` over the outcomes, stopping at the first
   * exit. The labels of a results dict are distinct, so `tokens[key] = ...`
   * always adds a new key at the end.
   */
  function Collect(outs: seq<(string, Option<(string, bool)>)>): TokenRun {
    if outs == [] then TokenRun([], false, false)
    else
      var prev := Collect(outs[..|outs| - 1]);
      var (key, out) := outs[|outs| - 1];
      if prev.exited then prev
      else if out.None? then prev.(exited := true)
      else TokenRun(prev.tokens + [(key, out.value.0)], prev.failed || out.value.1, false)
  }

  function Tokens(qs: seq<QuestionRow>, parts: Dict<Part>, src: TokenSource, results: Dict<string>): TokenRun {
    Collect(TokenOutcomes(qs, parts, src, results))
  }

  /** Once the loop has exited, the outcomes after do not change the tokens, the failure flag or the exit. */
  lemma {:induction false} CollectExitStays(outs: seq<(string, Option<(string, bool)>)>, k: nat)
    requires k <= |outs| && Collect(outs[..k]).exited
    ensures Collect(outs) == Collect(outs[..k])
    decreases |outs|
  {
    if k < |outs| {
      var init := outs[..|outs| - 1];
      assert init[..k] == outs[..k];
      CollectExitStays(init, k);
    } else {
      assert outs[..k] == outs;
    }
  }

  lemma {:induction false} CollectExit(outs: seq<(string, Option<(string, bool)>)>)
    ensures Collect(outs).exited <==> exists i :: 0 <= i < |outs| && outs[i].1.None?
  {
    if outs != [] {
      var init := outs[..|outs| - 1];
      assert forall i :: 0 <= i < |init| ==> init[i] == outs[i];
      CollectExit(init);
    }
  }

  lemma {:induction false} CollectExact(outs: seq<(string, Option<(string, bool)>)>)
    requires !Collect(outs).exited
    ensures var t := Collect(outs);
      |t.tokens| == |outs|
      && (forall i :: 0 <= i < |outs| ==> outs[i].1.Some? && t.tokens[i] == (outs[i].0, outs[i].1.value.0))
      && (t.failed <==> exists i :: 0 <= i < |outs| && outs[i].1.Some? && outs[i].1.value.1)
  {
    if outs != [] {
      var init := outs[..|outs| - 1];
      var (key, out) := outs[|outs| - 1];
      assert forall i :: 0 <= i < |init| ==> init[i] == outs[i];
      var prev := Collect(init);
      assert !prev.exited;
      CollectExact(init);
    }
  }

  /** The loop exits exactly when some result has neither "success" nor a question row. */
  lemma TokensExit(qs: seq<QuestionRow>, parts: Dict<Part>, src: TokenSource, results: Dict<string>)
    ensures Tokens(qs, parts, src, results).exited <==>
      exists i :: 0 <= i < |results| && !ContainsLower(results[i].1, "success") && CheckDb(qs, results[i].0).None?
  {
    var outs := TokenOutcomes(qs, parts, src, results);
    CollectExit(outs);
    assert forall i :: 0 <= i < |results| ==> (outs[i].1.None? <==> !ContainsLower(results[i].1, "success") && CheckDb(qs, results[i].0).None?);
  }

  /**
   * Without an exit there is one token per result, in the results' order: the
   * token read for a result mentioning "success" or an already solved
   * question, the refusal text otherwise. A read failed exactly when one of
   * those reads did.
   */
  lemma TokensExact(qs: seq<QuestionRow>, parts: Dict<Part>, src: TokenSource, results: Dict<string>)
    requires !Tokens(qs, parts, src, results).exited
    ensures var t := Tokens(qs, parts, src, results);
      |t.tokens| == |results|
      && (forall i :: 0 <= i < |results| ==>
            (t.tokens[i].0 == results[i].0
             && t.tokens[i].1 == (if ContainsLower(results[i].1, "success") || CheckDb(qs, results[i].0) == Some(true)
                                  then ReadToken(parts, src, results[i].0).0 else NO_TOKEN)))
      && (t.failed <==> exists i :: (0 <= i < |results|
            && (ContainsLower(results[i].1, "success") || CheckDb(qs, results[i].0) == Some(true))
            && ReadToken(parts, src, results[i].0).1))
  {
    var outs := TokenOutcomes(qs, parts, src, results);
    CollectExact(outs);
    forall i | 0 <= i < |results|
      ensures outs[i].1.value.0 == (if ContainsLower(results[i].1, "success") || CheckDb(qs, results[i].0) == Some(true)
                                    then ReadToken(parts, src, results[i].0).0 else NO_TOKEN)
      ensures outs[i].1.value.1 == ((ContainsLower(results[i].1, "success") || CheckDb(qs, results[i].0) == Some(true))
                                    && ReadToken(parts, src, results[i].0).1)
    {
      TokenForValue(qs, parts, src, results[i].0, results[i].1);
    }
  }

  /** What a `TokenFor` outcome that did not exit holds: the token read when one is owed, and whether that read failed. */
  lemma TokenForValue(qs: seq<QuestionRow>, parts: Dict<Part>, src: TokenSource, key: string, value: string)
    requires TokenFor(qs, parts, src, key, value).Some?
    ensures var owed := ContainsLower(value, "success") || CheckDb(qs, key) == Some(true);
      var out := TokenFor(qs, parts, src, key, value).value;
      out.0 == (if owed then ReadToken(parts, src, key).0 else NO_TOKEN) && out.1 == (owed && ReadToken(parts, src, key).1)
  {
  }
}
