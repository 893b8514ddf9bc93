/**
 * The question and phase tracking tables and the operations that read and
 * update them (`update_db`, `check_db`, `get_current_phase`, `record_solves`,
 * `check_questions`, the seeding in `initialize_db`).
 *
 * A table is a sequence of rows; a lookup `filter_by(label=...).first()` is
 * the first row with that label. `sys.exit(1)` is reported as a `false`
 * (or `None`) outcome and leaves what was not yet committed untouched.
 * Timestamps from `datetime.now()` are the parameter `now`.
 */
module Tracking {
  import opened Outcomes
  import opened Text
  import opened Dicts
  import opened Ordering
  import opened AppGlobals

  datatype QuestionRow = QuestionRow(id: int, name: string, task: string, response: string,
                                     qType: string, solved: bool, timeSolved: string)

  datatype PhaseRow = PhaseRow(id: int, name: string, tasks: string, solved: bool, timeSolved: string)

  /** A record of the EventTracker table. */
  datatype Event =
    | GradingResult(output: Dict<string>)
    | QuestionSolved(question: string, solvedAt: string)
    | PhaseSolved(phase: string, solvedAt: string)
    | ChallengeCompleted

  /** A call of `cmi5_send_answered` made by `update_db`. */
  datatype Answered = Answered(question: string, text: string, answer: string, mode: string,
                               opts: PartOpts, success: bool)

  // ---------------------------------------------------------------------------
  // Lookups

  /**
   * The first of `labels` equal to `name`, if any: the row a
   * `filter_by(label=...).first()` query returns, by position.
   */
  function FindLabel(labels: seq<string>, name: string): (r: Option<nat>)
    ensures r.None? <==> forall i :: 0 <= i < |labels| ==> labels[i] != name
    ensures r.Some? ==> r.value < |labels| && labels[r.value] == name
    ensures r.Some? ==> forall i :: 0 <= i < r.value ==> labels[i] != name
  {
    if labels == [] then None
    else if labels[0] == name then Some(0)
    else match FindLabel(labels[1..], name)
      case None => None
      case Some(i) => Some(i + 1)
  }

  function QuestionLabels(qs: seq<QuestionRow>): (r: seq<string>)
    ensures |r| == |qs| && forall i :: 0 <= i < |qs| ==> r[i] == qs[i].name
  {
    seq(|qs|, i requires 0 <= i < |qs| => qs[i].name)
  }

  function PhaseLabels(ps: seq<PhaseRow>): (r: seq<string>)
    ensures |r| == |ps| && forall i :: 0 <= i < |ps| ==> r[i] == ps[i].name
  {
    seq(|ps|, i requires 0 <= i < |ps| => ps[i].name)
  }

  function FindQuestion(qs: seq<QuestionRow>, name: string): (r: Option<nat>)
    ensures r.None? <==> forall i :: 0 <= i < |qs| ==> qs[i].name != name
    ensures r.Some? ==> r.value < |qs| && qs[r.value].name == name
    ensures r.Some? ==> forall i :: 0 <= i < r.value ==> qs[i].name != name
  {
    FindLabel(QuestionLabels(qs), name)
  }

  function FindPhase(ps: seq<PhaseRow>, name: string): (r: Option<nat>)
    ensures r.None? <==> forall i :: 0 <= i < |ps| ==> ps[i].name != name
    ensures r.Some? ==> r.value < |ps| && ps[r.value].name == name
    ensures r.Some? ==> forall i :: 0 <= i < r.value ==> ps[i].name != name
  {
    FindLabel(PhaseLabels(ps), name)
  }

  /** Two phase tables with the same labels at the same places. */
  predicate SameLabels(a: seq<PhaseRow>, b: seq<PhaseRow>) {
    |a| == |b| && forall i :: 0 <= i < |a| ==> a[i].name == b[i].name
  }

  lemma FindPhaseSameLabels(a: seq<PhaseRow>, b: seq<PhaseRow>, name: string)
    requires SameLabels(a, b)
    ensures FindPhase(a, name) == FindPhase(b, name)
  {
    assert PhaseLabels(a) == PhaseLabels(b);
  }

  /** `check_db(label)`: the solved flag of the question's row; `None` is `sys.exit(1)`. */
  function CheckDb(qs: seq<QuestionRow>, name: string): (r: Option<bool>)
    ensures r.None? <==> forall i :: 0 <= i < |qs| ==> qs[i].name != name
    ensures r.Some? ==> exists i :: 0 <= i < |qs| && qs[i].name == name && qs[i].solved == r.value
  {
    match FindQuestion(qs, name)
    case None => None
    case Some(i) => Some(qs[i].solved)
  }

  // ---------------------------------------------------------------------------
  // update_db('q', label, val)

  /** The row after recording `val` ("status--answer" as `do_grade` writes it). */
  function QuestionAfter(row: QuestionRow, val: string, now: string): QuestionRow {
    var resp1 := if Contains(val, "--") then SplitFirst(val, "--").value.0 else row.response;
    var resp := if val != "" && !Contains(val, "--") && resp1 == "" then "N/A" else resp1;
    if ContainsLower(val, "success") then row.(response := resp, solved := true, timeSolved := now)
    else row.(response := resp)
  }

  /** What the question update reports to cmi5. */
  datatype Notice = Silent | Sent(call: Answered) | AnswerUnbound

  /**
   * The statement `update_db` sends: only while the row is still unsolved (and
   * cmi5 enabled), with success when "success" occurs in `val`. Without "--"
   * in `val` the answer variable is unbound and the update ends in an exit.
   */
  function NoticeFor(row: QuestionRow, name: string, val: string, cmi5: bool, part: Option<Part>): Notice {
    if row.solved || !cmi5 then Silent
    else if !Contains(val, "--") then AnswerUnbound
    else
      var text := if part.Some? then part.value.text else "";
      var mode := if part.Some? then part.value.mode else "";
      var opts := if mode == "mc" then (if part.value.opts.NoOpts? then DictOpts([]) else part.value.opts)
                  else DictOpts([]);
      Sent(Answered(name, text, SplitFirst(val, "--").value.1, mode, opts, ContainsLower(val, "success")))
  }

  /**
   * The tables after `update_db('q', name, val)`: the first row named `name`
   * is updated and a cmi5 call may be logged; `None` is an exit, which
   * changes nothing.
   */
  function QuestionUpdate(qs: seq<QuestionRow>, ans: seq<Answered>, name: string, val: string, now: string,
                          cmi5: bool, parts: Dict<Part>): Option<(seq<QuestionRow>, seq<Answered>)>
  {
    match FindQuestion(qs, name)
    case None => None
    case Some(i) =>
      var notice := NoticeFor(qs[i], name, val, cmi5, Get(parts, name));
      if notice == AnswerUnbound then None
      else Some((qs[i := QuestionAfter(qs[i], val, now)], ans + if notice.Sent? then [notice.call] else []))
  }

  /** `solved` only ever goes from false to true, and does so exactly on "success". */
  lemma SolvedMonotone(row: QuestionRow, val: string, now: string)
    ensures QuestionAfter(row, val, now).solved <==> row.solved || ContainsLower(val, "success")
    ensures row.solved ==> QuestionAfter(row, val, now).solved
    ensures QuestionAfter(row, val, now).name == row.name && QuestionAfter(row, val, now).id == row.id
  {
  }

  /** The stored response: the text before the first "--", else "N/A" for a first bare value. */
  lemma ResponseAfter(row: QuestionRow, val: string, now: string)
    ensures Contains(val, "--") ==>
      val == QuestionAfter(row, val, now).response + "--" + SplitFirst(val, "--").value.1
      && !Contains(QuestionAfter(row, val, now).response, "--")
    ensures !Contains(val, "--") && val != "" && row.response == "" ==> QuestionAfter(row, val, now).response == "N/A"
    ensures !Contains(val, "--") && (val == "" || row.response != "") ==> QuestionAfter(row, val, now).response == row.response
  {
  }

  /**
   * `do_grade` records "status--answer": an answer that mentions "success" in
   * any letter case marks the question solved whatever the status says.
   */
  lemma AnswerMentioningSuccessSolves(row: QuestionRow, status: string, answer: string, now: string)
    requires ContainsLower(answer, "success")
    ensures QuestionAfter(row, status + "--" + answer, now).solved
  {
    LowerConcat(status + "--", answer);
    ContainsRight(Lower(status + "--"), Lower(answer), "success");
  }

  /** Replays updates on one row, collecting the cmi5 success flags sent, up to an exit. */
  function Replay(row: QuestionRow, vals: seq<string>, now: string, part: Option<Part>): (r: (QuestionRow, seq<bool>))
    decreases |vals|
  {
    if vals == [] then (row, [])
    else match NoticeFor(row, row.name, vals[0], true, part)
      case AnswerUnbound => (row, [])
      case Silent => Replay(QuestionAfter(row, vals[0], now), vals[1..], now, part)
      case Sent(c) =>
        var rest := Replay(QuestionAfter(row, vals[0], now), vals[1..], now, part);
        (rest.0, [c.success] + rest.1)
  }

  function CountTrue(bs: seq<bool>): nat {
    if bs == [] then 0 else (if bs[0] then 1 else 0) + CountTrue(bs[1..])
  }

  /**
   * Success statements are edge-triggered: over any run of updates a question
   * reports success at most once (and never once solved); failure statements
   * are level-triggered: every statement before the success is a failure.
   */
  lemma {:induction false} SuccessNotifiedOnce(row: QuestionRow, vals: seq<string>, now: string, part: Option<Part>)
    ensures CountTrue(Replay(row, vals, now, part).1) <= 1
    ensures row.solved ==> Replay(row, vals, now, part).1 == []
    ensures forall i :: 0 <= i < |Replay(row, vals, now, part).1| - 1 ==> !Replay(row, vals, now, part).1[i]
    decreases |vals|
  {
    if vals != [] {
      var next := QuestionAfter(row, vals[0], now);
      SuccessNotifiedOnce(next, vals[1..], now, part);
      match NoticeFor(row, row.name, vals[0], true, part)
      case AnswerUnbound =>
      case Silent =>
      case Sent(c) =>
        var rest := Replay(next, vals[1..], now, part);
        if c.success {
          assert next.solved;
          assert rest.1 == [];
        }
        assert Replay(row, vals, now, part).1 == [c.success] + rest.1;
    }
  }

  // ---------------------------------------------------------------------------
  // Phases

  /** How many of `names` are unsolved; `None` when one of them has no row (an exit). */
  function Unsolved(qs: seq<QuestionRow>, names: seq<string>): Option<nat> {
    if names == [] then Some(0)
    else match FindQuestion(qs, names[0])
      case None => None
      case Some(i) =>
        match Unsolved(qs, names[1..])
        case None => None
        case Some(n) => Some(if qs[i].solved then n else n + 1)
  }

  /** The question `name` has a row, and that row is solved. */
  predicate SolvedRow(qs: seq<QuestionRow>, name: string) {
    FindQuestion(qs, name).Some? && qs[FindQuestion(qs, name).value].solved
  }

  lemma {:induction false} UnsolvedZero(qs: seq<QuestionRow>, names: seq<string>)
    ensures Unsolved(qs, names) == Some(0) <==> forall k :: 0 <= k < |names| ==> SolvedRow(qs, names[k])
  {
    if names != [] {
      UnsolvedZero(qs, names[1..]);
      AllSolvedCons(qs, names);
    }
  }

  lemma AllSolvedCons(qs: seq<QuestionRow>, names: seq<string>)
    requires names != []
    ensures (forall k :: 0 <= k < |names| ==> SolvedRow(qs, names[k])) <==>
      SolvedRow(qs, names[0]) && forall k :: 0 <= k < |names| - 1 ==> SolvedRow(qs, names[1..][k])
  {
    assert forall k :: 1 <= k < |names| ==> names[k] == names[1..][k - 1];
  }

  /**
   * The counting loop of `update_db('p')`: the number of the phase's questions,
   * less one for each row found solved; `None` is the exit on a missing row.
   */
  method CountUnsolved(qs: seq<QuestionRow>, names: seq<string>) returns (r: Option<nat>)
    ensures r == Unsolved(qs, names)
  {
    var numQ := |names|;
    var j := 0;
    while j < |names|
      invariant 0 <= j <= |names|
      invariant Unsolved(qs, names[j..]).Some? ==> Unsolved(qs, names).Some?
      invariant Unsolved(qs, names[j..]).None? ==> Unsolved(qs, names).None?
      invariant Unsolved(qs, names[j..]).Some? ==>
        Unsolved(qs, names).value == Unsolved(qs, names[j..]).value + (numQ - (|names| - j))
      invariant numQ >= |names| - j
    {
      assert names[j..][1..] == names[j + 1..];
      var q := FindQuestion(qs, names[j]);
      if q.None? {
        return None;
      }
      if qs[q.value].solved {
        numQ := numQ - 1;
      }
      j := j + 1;
    }
    assert names[|names|..] == [];
    r := Some(numQ);
  }

  datatype Scan =
    | ScanExit(ps: seq<PhaseRow>)
    | ScanStop(ps: seq<PhaseRow>, current: string)
    | ScanDone(ps: seq<PhaseRow>)

  /** `update_db('p')`: the walk over the phase order, with the phase rows it has committed. */
  function ScanPhases(ps: seq<PhaseRow>, qs: seq<QuestionRow>, order: seq<string>, now: string): Scan
    decreases |order|
  {
    if order == [] then ScanDone(ps)
    else match FindPhase(ps, order[0])
      case None => ScanExit(ps)
      case Some(i) =>
        if ps[i].solved then ScanPhases(ps, qs, order[1..], now)
        else match Unsolved(qs, Split(ps[i].tasks, ','))
          case None => ScanExit(ps)
          case Some(n) =>
            if n == 0 then ScanPhases(ps[i := ps[i].(solved := true, timeSolved := now)], qs, order[1..], now)
            else ScanStop(ps, ps[i].name)
  }

  /** The scan only marks phases solved; nothing else of a row changes. */
  lemma {:induction false} ScanMonotone(ps: seq<PhaseRow>, qs: seq<QuestionRow>, order: seq<string>, now: string)
    ensures SameLabels(ps, ScanPhases(ps, qs, order, now).ps)
    ensures forall i :: 0 <= i < |ps| ==> ps[i].solved ==> ScanPhases(ps, qs, order, now).ps[i].solved
    ensures forall i :: 0 <= i < |ps| ==> ScanPhases(ps, qs, order, now).ps[i].tasks == ps[i].tasks
    ensures forall i :: 0 <= i < |ps| ==> ScanPhases(ps, qs, order, now).ps[i].id == ps[i].id
    decreases |order|
  {
    if order != [] {
      match FindPhase(ps, order[0])
      case None =>
      case Some(i) =>
        if ps[i].solved {
          ScanMonotone(ps, qs, order[1..], now);
        } else if Unsolved(qs, Split(ps[i].tasks, ',')) == Some(0) {
          ScanMonotone(ps[i := ps[i].(solved := true, timeSolved := now)], qs, order[1..], now);
        }
    }
  }

  /** `get_current_phase` after the table check: the walk over the order. */
  function WalkPhases(ps: seq<PhaseRow>, order: seq<string>): Option<string> {
    if order == [] then Some("completed")
    else match FindPhase(ps, order[0])
      case None => None
      case Some(i) => if ps[i].solved then WalkPhases(ps, order[1..]) else Some(ps[i].name)
  }

  /**
   * `get_current_phase()`: the first phase of the order whose row is unsolved,
   * else "completed"; `None` is the `KeyError` for an empty table or a missing row.
   */
  function CurrentPhase(ps: seq<PhaseRow>, order: seq<string>): (r: Option<string>)
    ensures ps == [] ==> r.None?
    ensures r.Some? && r.value != "completed" ==> r.value in order
  {
    if ps == [] then None else WalkPhasesIn(ps, order); WalkPhases(ps, order)
  }

  lemma {:induction false} WalkPhasesIn(ps: seq<PhaseRow>, order: seq<string>)
    ensures WalkPhases(ps, order).Some? && WalkPhases(ps, order).value != "completed" ==> WalkPhases(ps, order).value in order
  {
    if order != [] {
      WalkPhasesIn(ps, order[1..]);
    }
  }

  /**
   * After `update_db('p')` stops at a phase, `get_current_phase` names that
   * same phase; after a complete scan it says "completed".
   */
  lemma {:induction false} ScanAgreesWithCurrentPhase(ps: seq<PhaseRow>, qs: seq<QuestionRow>, order: seq<string>, now: string)
    ensures ScanPhases(ps, qs, order, now).ScanStop? ==>
      WalkPhases(ScanPhases(ps, qs, order, now).ps, order) == Some(ScanPhases(ps, qs, order, now).current)
    ensures ScanPhases(ps, qs, order, now).ScanDone? ==>
      WalkPhases(ScanPhases(ps, qs, order, now).ps, order) == Some("completed")
    decreases |order|
  {
    if order != [] {
      match FindPhase(ps, order[0])
      case None =>
      case Some(i) =>
        if ps[i].solved || Unsolved(qs, Split(ps[i].tasks, ',')) == Some(0) {
          var ps1 := if ps[i].solved then ps else ps[i := ps[i].(solved := true, timeSolved := now)];
          assert SameLabels(ps, ps1);
          ScanAgreesWithCurrentPhase(ps1, qs, order[1..], now);
          ScanMonotone(ps1, qs, order[1..], now);
          var out := ScanPhases(ps1, qs, order[1..], now).ps;
          FindPhaseSameLabels(ps1, out, order[0]);
          FindPhaseSameLabels(ps, ps1, order[0]);
        }
    }
  }

  // ---------------------------------------------------------------------------
  // Events

  function QuestionEvents(qs: seq<QuestionRow>): seq<Event> {
    if qs == [] then []
    else QuestionEvents(qs[..|qs| - 1])
         + (if qs[|qs| - 1].solved then [QuestionSolved(qs[|qs| - 1].name, qs[|qs| - 1].timeSolved)] else [])
  }

  function PhaseEvents(ps: seq<PhaseRow>): seq<Event> {
    if ps == [] then []
    else PhaseEvents(ps[..|ps| - 1])
         + (if ps[|ps| - 1].solved then [PhaseSolved(ps[|ps| - 1].name, ps[|ps| - 1].timeSolved)] else [])
  }

  /** One event per solved question, and nothing else. */
  lemma {:induction false} QuestionEventsExact(qs: seq<QuestionRow>)
    ensures forall q :: q in qs && q.solved ==> QuestionSolved(q.name, q.timeSolved) in QuestionEvents(qs)
    ensures forall e :: e in QuestionEvents(qs) ==>
      e.QuestionSolved? && exists q :: q in qs && q.solved && e == QuestionSolved(q.name, q.timeSolved)
    ensures |QuestionEvents(qs)| == CountSolved(qs)
  {
    if qs != [] {
      var init := qs[..|qs| - 1];
      QuestionEventsExact(init);
      assert qs == init + [qs[|qs| - 1]];
      forall e | e in QuestionEvents(qs)
        ensures e.QuestionSolved? && exists q :: q in qs && q.solved && e == QuestionSolved(q.name, q.timeSolved)
      {
        if e in QuestionEvents(init) {
          var q :| q in init && q.solved && e == QuestionSolved(q.name, q.timeSolved);
          assert q in qs;
        }
      }
      CountSolvedSnoc(init, qs[|qs| - 1]);
    }
  }

  function CountSolved(qs: seq<QuestionRow>): nat {
    if qs == [] then 0 else (if qs[0].solved then 1 else 0) + CountSolved(qs[1..])
  }

  lemma {:induction false} CountSolvedSnoc(qs: seq<QuestionRow>, q: QuestionRow)
    ensures CountSolved(qs + [q]) == CountSolved(qs) + (if q.solved then 1 else 0)
  {
    if qs != [] {
      assert (qs + [q])[1..] == qs[1..] + [q];
      CountSolvedSnoc(qs[1..], q);
    }
  }

  /** Every row solved exactly when the solved count reaches the row count. */
  lemma {:induction false} CountSolvedAll(qs: seq<QuestionRow>)
    ensures CountSolved(qs) <= |qs|
    ensures CountSolved(qs) == |qs| <==> forall i :: 0 <= i < |qs| ==> qs[i].solved
  {
    if qs != [] {
      CountSolvedAll(qs[1..]);
      assert forall i :: 1 <= i < |qs| ==> qs[i] == qs[1..][i - 1];
    }
  }

  // ---------------------------------------------------------------------------
  // Seeding

  /** The question rows `initialize_db` adds: ids from 1 in question order, unsolved. */
  function NewQuestionRows(order: seq<string>, parts: Dict<Part>, first: int): (r: seq<QuestionRow>)
    ensures |r| == |order|
    ensures forall i :: 0 <= i < |r| ==>
      (r[i].id == first + i && r[i].name == order[i] && !r[i].solved && r[i].response == "" && r[i].timeSolved == "---")
  {
    if order == [] then []
    else
      var p := Get(parts, order[0]);
      var text := if p.Some? then p.value.text else "";
      var mode := if p.Some? then p.value.mode else "";
      [QuestionRow(first, order[0], text, "", mode, false, "---")] + NewQuestionRows(order[1..], parts, first + 1)
  }

  /** The phase rows `initialize_db` adds: ids from 0 in phase order, tasks joined by ','. */
  function NewPhaseRows(order: seq<string>, info: Dict<seq<string>>, first: int): (r: seq<PhaseRow>)
    ensures |r| == |order|
    ensures forall i :: 0 <= i < |r| ==>
      (r[i].id == first + i && r[i].name == order[i] && !r[i].solved && r[i].timeSolved == "---")
  {
    if order == [] then []
    else
      var tasks := Get(info, order[0]).GetOr([]);
      [PhaseRow(first, order[0], Join(tasks, ','), false, "---")] + NewPhaseRows(order[1..], info, first + 1)
  }

  /** A phase's stored task list splits back into its configured questions. */
  lemma PhaseTasksRoundTrip(order: seq<string>, info: Dict<seq<string>>, first: int, i: nat)
    requires i < |order| && Get(info, order[i]).Some? && Get(info, order[i]).value != []
    requires forall k :: 0 <= k < |Get(info, order[i]).value| ==> ',' !in Get(info, order[i]).value[k]
    ensures Split(NewPhaseRows(order, info, first)[i].tasks, ',') == Get(info, order[i]).value
  {
    PhaseRowTasks(order, info, first, i);
    SplitJoin(Get(info, order[i]).value, ',');
  }

  lemma {:induction false} PhaseRowTasks(order: seq<string>, info: Dict<seq<string>>, first: int, i: nat)
    requires i < |order|
    ensures NewPhaseRows(order, info, first)[i].tasks == Join(Get(info, order[i]).GetOr([]), ',')
  {
    if i > 0 {
      PhaseRowTasks(order[1..], info, first + 1, i - 1);
    }
  }

  /** Index of the first new id (`first`, `first + 1`, ...) already used by a row, if any. */
  function FirstClash(ids: seq<int>, first: int, n: nat): (r: Option<nat>)
    ensures r.Some? ==> r.value < n && first + r.value in ids
    ensures r.Some? ==> forall id :: first <= id < first + r.value ==> id !in ids
    ensures r.None? ==> forall id :: first <= id < first + n ==> id !in ids
    decreases n
  {
    if n == 0 then None
    else if first in ids then Some(0)
    else match FirstClash(ids, first + 1, n - 1)
      case None => None
      case Some(k) => Some(k + 1)
  }

  lemma NoClash(ids: seq<int>, first: int, n: nat)
    requires forall id :: first <= id < first + n ==> id !in ids
    ensures FirstClash(ids, first, n).None?
  {
  }

  lemma {:induction false} FirstClashAt(ids: seq<int>, first: int, n: nat, k: nat)
    requires k < n && first + k in ids
    requires forall id :: first <= id < first + k ==> id !in ids
    ensures FirstClash(ids, first, n) == Some(k)
    decreases k
  {
    if k > 0 {
      FirstClashAt(ids, first + 1, n - 1, k - 1);
    }
  }

  /**
   * The outcome of adding `added` row by row after `rows`: all of them, or
   * those before the first clashing id followed by an exit (`false`).
   */
  function Seeded<T>(rows: seq<T>, added: seq<T>, clash: Option<nat>): (bool, seq<T>) {
    match clash
    case None => (true, rows + added)
    case Some(k) => (false, rows + (if k <= |added| then added[..k] else added))
  }

  function QuestionIds(qs: seq<QuestionRow>): (r: seq<int>)
    ensures |r| == |qs| && forall i :: 0 <= i < |qs| ==> r[i] == qs[i].id
  {
    if qs == [] then [] else [qs[0].id] + QuestionIds(qs[1..])
  }

  function PhaseIds(ps: seq<PhaseRow>): (r: seq<int>)
    ensures |r| == |ps| && forall i :: 0 <= i < |ps| ==> r[i] == ps[i].id
  {
    if ps == [] then [] else [ps[0].id] + PhaseIds(ps[1..])
  }

  // ---------------------------------------------------------------------------
  // The tables

  class Registry {
    var questions: seq<QuestionRow>
    var phases: seq<PhaseRow>
    var events: seq<Event>
    var answered: seq<Answered>

    constructor ()
      ensures questions == [] && phases == [] && events == [] && answered == []
    {
      questions, phases, events, answered := [], [], [], [];
    }

    /**
     * `update_db('q', name, val)`: `false` is the exit taken for a missing row
     * (or an unbound answer), which leaves the row unchanged.
     */
    method UpdateQuestion(g: Globals, name: string, val: string, now: string) returns (ok: bool)
      modifies this`questions, this`answered
      ensures FindQuestion(old(questions), name).None? ==> !ok
      ensures ok ==> FindQuestion(old(questions), name).Some?
      ensures ok ==>
        var i := FindQuestion(old(questions), name).value;
        var notice := NoticeFor(old(questions)[i], name, val, g.cmi5Enabled, Get(g.gradingParts, name));
        && questions == old(questions)[i := QuestionAfter(old(questions)[i], val, now)]
        && notice != AnswerUnbound
        && answered == old(answered) + (if notice.Sent? then [notice.call] else [])
      ensures !ok ==> questions == old(questions) && answered == old(answered)
      ensures var u := QuestionUpdate(old(questions), old(answered), name, val, now, g.cmi5Enabled, g.gradingParts);
        ok == u.Some? && (ok ==> (questions, answered) == u.value)
    {
      var found := FindQuestion(questions, name);
      if found.None? {
        return false;
      }
      var i := found.value;
      var row := questions[i];
      var notice := NoticeFor(row, name, val, g.cmi5Enabled, Get(g.gradingParts, name));
      if notice == AnswerUnbound {
        return false;
      }
      questions := questions[i := QuestionAfter(row, val, now)];
      if notice.Sent? {
        answered := answered + [notice.call];
      }
      ok := true;
    }

    /** `check_db(name)`. */
    function Solved(name: string): Option<bool>
      reads this
    {
      CheckDb(questions, name)
    }

    /**
     * `update_db('p')`: walks the phase order, marks phases whose questions are
     * all solved, and stops at the first phase with an unsolved question,
     * which becomes the current phase. `false` is an exit on a missing row.
     */
    method UpdatePhases(g: Globals, now: string) returns (ok: bool)
      modifies this`phases, g`currentPhase
      ensures var s := ScanPhases(old(phases), questions, g.phaseOrder, now);
        phases == s.ps && ok == !s.ScanExit?
        && g.currentPhase == (if s.ScanStop? then Some(s.current) else old(g.currentPhase))
    {
      var order := g.phaseOrder;
      var k := 0;
      while k < |order|
        invariant 0 <= k <= |order|
        invariant g.currentPhase == old(g.currentPhase)
        invariant ScanPhases(old(phases), questions, order, now) == ScanPhases(phases, questions, order[k..], now)
      {
        assert order[k..][1..] == order[k + 1..];
        var found := FindPhase(phases, order[k]);
        if found.None? {
          return false;
        }
        var i := found.value;
        if !phases[i].solved {
          var numQ := CountUnsolved(questions, Split(phases[i].tasks, ','));
          if numQ.None? {
            return false;
          }
          if numQ.value == 0 {
            phases := phases[i := phases[i].(solved := true, timeSolved := now)];
          } else {
            g.currentPhase := Some(phases[i].name);
            return true;
          }
        }
        k := k + 1;
      }
      assert order[|order|..] == [];
      ok := true;
    }

    /** `get_current_phase()`, which also records a phase it finds as the current one. */
    method GetCurrentPhase(g: Globals) returns (r: Option<string>)
      modifies g`currentPhase
      ensures r == CurrentPhase(phases, g.phaseOrder)
      ensures g.currentPhase == if r.Some? && r.value != "completed" then r else old(g.currentPhase)
    {
      r := CurrentPhase(phases, g.phaseOrder);
      if r.Some? && r.value != "completed" {
        g.currentPhase := r;
      }
    }

    /** `record_solves()`: one event per solved question, then per solved phase, on every call. */
    method RecordSolves()
      modifies this`events
      ensures events == old(events) + QuestionEvents(questions) + PhaseEvents(phases)
    {
      var i := 0;
      while i < |questions|
        invariant 0 <= i <= |questions|
        invariant events == old(events) + QuestionEvents(questions[..i])
      {
        assert questions[..i + 1][..i] == questions[..i];
        if questions[i].solved {
          events := events + [QuestionSolved(questions[i].name, questions[i].timeSolved)];
        }
        i := i + 1;
      }
      assert questions[..|questions|] == questions;
      var j := 0;
      while j < |phases|
        invariant 0 <= j <= |phases|
        invariant events == old(events) + QuestionEvents(questions) + PhaseEvents(phases[..j])
      {
        assert phases[..j + 1][..j] == phases[..j];
        if phases[j].solved {
          events := events + [PhaseSolved(phases[j].name, phases[j].timeSolved)];
        }
        j := j + 1;
      }
      assert phases[..|phases|] == phases;
    }

    /** `check_questions()`: a completion event whenever every question row is solved. */
    method CheckQuestions()
      modifies this`events
      ensures events == old(events) + if forall i :: 0 <= i < |questions| ==> questions[i].solved
                                         then [ChallengeCompleted] else []
    {
      var solvedTracker := 0;
      var i := 0;
      while i < |questions|
        invariant 0 <= i <= |questions|
        invariant solvedTracker + CountSolved(questions[i..]) == CountSolved(questions)
      {
        assert questions[i..][1..] == questions[i + 1..];
        if questions[i].solved {
          solvedTracker := solvedTracker + 1;
        }
        i := i + 1;
      }
      CountSolvedAll(questions);
      if solvedTracker == |questions| {
        events := events + [ChallengeCompleted];
      }
    }

    /**
     * The question seeding of `initialize_db`: rows for the case-insensitively
     * sorted part labels, added one by one, only when the row count differs
     * from the part count. `false` is the exit on an id already in use; the
     * rows added before it stay.
     */
    method SeedQuestions(order: seq<string>, parts: Dict<Part>) returns (ok: bool)
      modifies this`questions
      ensures |old(questions)| == |parts| ==> ok && questions == old(questions)
      ensures |old(questions)| != |parts| ==>
        (ok, questions) == Seeded(old(questions), NewQuestionRows(order, parts, 1),
                                  FirstClash(QuestionIds(old(questions)), 1, |order|))
    {
      if |questions| == |parts| {
        return true;
      }
      var rows := NewQuestionRows(order, parts, 1);
      ok, questions := SeedRows(questions, rows, QuestionIds(questions), 1);
    }

    /** The phase seeding of `initialize_db`, with ids from 0; as for questions. */
    method SeedPhases(order: seq<string>, info: Dict<seq<string>>) returns (ok: bool)
      modifies this`phases
      ensures |old(phases)| == |info| ==> ok && phases == old(phases)
      ensures |old(phases)| != |info| ==>
        (ok, phases) == Seeded(old(phases), NewPhaseRows(order, info, 0), FirstClash(PhaseIds(old(phases)), 0, |order|))
    {
      if |phases| == |info| {
        return true;
      }
      var rows := NewPhaseRows(order, info, 0);
      ok, phases := SeedRows(phases, rows, PhaseIds(phases), 0);
    }
  }

  /**
   * The seeding loop: `added` appended row by row after `rows`, the row at
   * index `i` taking id `first + i`; it exits at the first id already in `ids`.
   */
  method SeedRows<T>(rows: seq<T>, added: seq<T>, ids: seq<int>, first: int) returns (ok: bool, out: seq<T>)
    ensures (ok, out) == Seeded(rows, added, FirstClash(ids, first, |added|))
  {
    out := rows;
    var index := 0;
    while index < |added|
      invariant 0 <= index <= |added|
      invariant out == rows + added[..index]
      invariant forall id :: first <= id < first + index ==> id !in ids
    {
      if first + index in ids {
        FirstClashAt(ids, first, |added|, index);
        return false, out;
      }
      PrefixSnoc(added, index);
      out := out + [added[index]];
      index := index + 1;
    }
    PrefixAll(added);
    NoClash(ids, first, |added|);
    ok := true;
  }

  lemma {:induction false} RowAt(order: seq<string>, parts: Dict<Part>, first: int, i: nat)
    requires i < |order|
    ensures var p := Get(parts, order[i]);
      NewQuestionRows(order, parts, first)[i] ==
        QuestionRow(first + i, order[i], if p.Some? then p.value.text else "",
                    "", if p.Some? then p.value.mode else "", false, "---")
  {
    if i > 0 {
      RowAt(order[1..], parts, first + 1, i - 1);
      assert order[1..][i - 1] == order[i];
      assert NewQuestionRows(order, parts, first)[i] == NewQuestionRows(order[1..], parts, first + 1)[i - 1];
    }
  }

  lemma {:induction false} PhaseRowAt(order: seq<string>, info: Dict<seq<string>>, first: int, i: nat)
    requires i < |order|
    ensures NewPhaseRows(order, info, first)[i] ==
      PhaseRow(first + i, order[i], Join(Get(info, order[i]).GetOr([]), ','), false, "---")
  {
    if i > 0 {
      PhaseRowAt(order[1..], info, first + 1, i - 1);
    }
  }

  /**
   * Seeding an empty table adds one row per part without a clash. The table
   * then holds as many rows as there are parts, which is the count that
   * makes `InitializeQuestions` skip a later seeding.
   */
  lemma SeedingFillsTable(parts: Dict<Part>)
    requires Valid(parts)
    ensures |NewQuestionRows(SortByFold(Keys(parts)), parts, 1)| == |parts|
    ensures FirstClash(QuestionIds([]), 1, |parts|).None?
  {
    assert |SortByFold(Keys(parts))| == |multiset(SortByFold(Keys(parts)))| == |multiset(Keys(parts))|;
  }

  /**
   * The phase half of `initialize_db`: with phases configured, sets the phase
   * order, takes the current phase from the table (the first phase when the
   * lookup raises) and seeds the phase rows. `false` is an exit.
   */
  method InitializePhases(reg: Registry, g: Globals, phasesFlag: bool, info: Dict<seq<string>>) returns (ok: bool)
    modifies reg`phases, g`phasesEnabled, g`phases, g`phaseOrder, g`currentPhase
    ensures phasesFlag && info == [] ==> !ok && reg.phases == old(reg.phases)
    ensures !phasesFlag ==> ok && reg.phases == old(reg.phases) && g.phaseOrder == old(g.phaseOrder)
    ensures !phasesFlag ==> g.currentPhase == old(g.currentPhase) && g.phasesEnabled == old(g.phasesEnabled)
    ensures phasesFlag && info != [] ==>
      g.phasesEnabled && g.phases == info && g.phaseOrder == PhaseOrder(Keys(info)) && g.phaseOrder != []
    ensures phasesFlag && info != [] ==>
      g.currentPhase == Some(CurrentPhase(old(reg.phases), g.phaseOrder).GetOr(g.phaseOrder[0]))
    ensures phasesFlag && info != [] && old(reg.phases) == [] ==> ok && reg.phases == NewPhaseRows(g.phaseOrder, info, 0)
  {
    ok := true;
    if phasesFlag {
      g.phasesEnabled := true;
      if info == [] {
        return false;
      }
      g.phases := info;
      var order := PhaseOrder(Keys(info));
      PhaseOrderNonEmpty(Keys(info));
      g.phaseOrder := order;
      ghost var before := reg.phases;
      var cur := reg.GetCurrentPhase(g);
      assert cur == CurrentPhase(before, order);
      g.currentPhase := Some(if cur.None? then order[0] else cur.value);
      FirstClashNone(0, |order|);
      ok := reg.SeedPhases(order, info);
      assert g.phaseOrder == order && g.phases == info;
    }
  }

  /** The question half of `initialize_db`: question rows in case-insensitive label order. */
  method InitializeQuestions(reg: Registry, g: Globals) returns (ok: bool)
    modifies reg`questions
    ensures old(reg.questions) == [] ==>
      ok && reg.questions == NewQuestionRows(SortByFold(Keys(g.gradingParts)), g.gradingParts, 1)
    ensures |old(reg.questions)| == |g.gradingParts| ==> ok && reg.questions == old(reg.questions)
  {
    var parts := g.gradingParts;
    var questionOrder := SortByFold(Keys(parts));
    SortedLength(Keys(parts));
    if reg.questions == [] {
      FirstClashNone(1, |questionOrder|);
      SeededEmpty(NewQuestionRows(questionOrder, parts, 1));
    }
    ok := reg.SeedQuestions(questionOrder, parts);
  }

  /** `initialize_db`: the phase half, then (unless it exited) the question half. */
  method InitializeDb(reg: Registry, g: Globals, phasesFlag: bool, info: Dict<seq<string>>) returns (ok: bool)
    modifies reg`phases, reg`questions, g`phasesEnabled, g`phases, g`phaseOrder, g`currentPhase
    ensures phasesFlag && info == [] ==> !ok && reg.questions == old(reg.questions)
    ensures ok && old(reg.questions) == [] ==>
      reg.questions == NewQuestionRows(SortByFold(Keys(g.gradingParts)), g.gradingParts, 1)
  {
    ok := InitializePhases(reg, g, phasesFlag, info);
    if ok {
      ok := InitializeQuestions(reg, g);
    }
  }

  lemma PhaseOrderNonEmpty(labels: seq<string>)
    requires labels != []
    ensures PhaseOrder(labels) != []
  {
    PhaseOrderPermutes(labels);
  }

  lemma SortedLength(labels: seq<string>)
    ensures |SortByFold(labels)| == |labels|
  {
    assert |SortByFold(labels)| == |multiset(SortByFold(labels))| == |multiset(labels)|;
  }

  lemma SeededEmpty<T>(added: seq<T>)
    ensures Seeded([], added, None) == (true, added)
  {
    assert [] + added == added;
  }

  lemma FirstClashNone(first: int, n: nat)
    ensures FirstClash(QuestionIds([]), first, n) == None
    ensures FirstClash(PhaseIds([]), first, n) == None
  {
  }
}
