/**
 * The web routes that coordinate grading: `grade()`, the single-flight and
 * rate-limited starter of grading tasks; `tasks()`, which groups the grading
 * parts by mode for the task page; and `updated_results()`, which renders the
 * question rows as display statuses, walking the phases up to the current one.
 * The executor's progress, the clock and the request are inputs; page
 * rendering is reduced to which page is shown.
 */
module Coordinator {
  import opened Outcomes
  import opened Text
  import opened Dicts
  import opened AppGlobals
  import opened Tracking
  import opened Grading
  import Submission
  import GradingFlow

  // ---------------------------------------------------------------------------
  // grade()

  datatype Request = GetRequest | PostRequest(form: Dict<string>)

  /** What the submitted task runs: `do_grade()` with no argument, or `do_grade(form)`. */
  datatype Call = CallNoArgs | CallWithForm(form: Dict<string>)

  /** The response: a redirect, the grading page with a submit time, or none at all. */
  datatype GradePage = TasksPage | ResultsPage | InfoPage | GradingPage(submitTime: int) | NoResponse

  /** What `grade()` reads but never changes. */
  datatype GradeConfig = GradeConfig(enabled: bool, completed: bool, ready: bool, rate: int)

  /** What `grade()` changes: `globals.task` and `globals.manual_submit_time`. */
  datatype GradeState = GradeState(task: Option<TaskState>, submitTime: int)

  datatype GradeOutcome = GradeOutcome(page: GradePage, state: GradeState, call: Option<Call>)

  function CallFor(req: Request): Call {
    match req
    case GetRequest => CallNoArgs
    case PostRequest(form) => CallWithForm(form)
  }

  /**
   * One request to `/grade`. A task is started only when grading is enabled,
   * the lab is not completed, the server is ready, no task exists and the
   * rate limit has expired; the submit time is then set to now. A finished
   * task is cleared and the user sent to the results; a running one keeps
   * the grading page; a queued one gets no response.
   */
  function GradeStep(c: GradeConfig, s: GradeState, req: Request, now: int): (r: GradeOutcome)
    ensures r.call.Some? <==> c.enabled && !c.completed && c.ready && s.task.None? && s.submitTime + c.rate <= now
    ensures r.call.Some? ==> r.call.value == CallFor(req) && r.state == GradeState(Some(Pending), now) && r.page == GradingPage(now)
    ensures r.call.None? ==> r.state.submitTime == s.submitTime
    ensures r.call.None? && r.state != s ==> s.task == Some(Finished) && r.state.task.None? && r.page == ResultsPage
    ensures !c.enabled ==> r == GradeOutcome(TasksPage, s, None)
  {
    if !c.enabled then GradeOutcome(TasksPage, s, None)
    else if c.completed then GradeOutcome(ResultsPage, s, None)
    else if !c.ready then GradeOutcome(InfoPage, s, None)
    else if s.task.None? then
      if s.submitTime + c.rate > now then GradeOutcome(TasksPage, s, None)
      else GradeOutcome(GradingPage(now), GradeState(Some(Pending), now), Some(CallFor(req)))
    else if s.task.value == Finished then GradeOutcome(ResultsPage, GradeState(None, s.submitTime), None)
    else if s.task.value == Running then GradeOutcome(GradingPage(s.submitTime), s, None)
    else GradeOutcome(NoResponse, s, None)
  }

  /** `check_questions()` adds a completion event when every question is solved. */
  function Completion(qs: seq<QuestionRow>): seq<Event> {
    if forall i :: 0 <= i < |qs| ==> qs[i].solved then [ChallengeCompleted] else []
  }

  /** `grade()`: `check_questions()` runs once grading is known to be enabled. */
  method Grade(g: Globals, reg: Registry, req: Request, now: int) returns (page: GradePage, call: Option<Call>)
    modifies g`task, g`manualSubmitTime, reg`events
    ensures var o := GradeStep(GradeConfig(g.gradingEnabled, g.labCompleted, g.serverReady, g.rateLimit),
                               GradeState(old(g.task), old(g.manualSubmitTime)), req, now);
      page == o.page && call == o.call && g.task == o.state.task && g.manualSubmitTime == o.state.submitTime
    ensures reg.events == old(reg.events) + if g.gradingEnabled then Completion(reg.questions) else []
  {
    call := None;
    if !g.gradingEnabled {
      return TasksPage, None;
    }
    reg.CheckQuestions();
    if g.labCompleted {
      return ResultsPage, None;
    }
    if !g.serverReady {
      return InfoPage, None;
    }
    if g.task.None? {
      if g.manualSubmitTime + g.rateLimit > now {
        return TasksPage, None;
      }
      g.manualSubmitTime := now;
      call := Some(CallFor(req));
      g.task := Some(Pending);
      return GradingPage(g.manualSubmitTime), call;
    }
    if g.task.value == Finished {
      g.task := None;
      return ResultsPage, None;
    }
    if g.task.value == Running {
      return GradingPage(g.manualSubmitTime), None;
    }
    page := NoResponse;
  }

  /**
   * A task that `grade()` submitted, run to its end and handed to the done
   * callback `done_grading`. A GET request submits `do_grade` without the
   * argument it requires, so that task raises `TypeError` before doing
   * anything and the callback stores nothing; a POST runs `GradeForm`.
   */
  method RunTask(reg: Registry, g: Globals, call: Call, run: Invocation -> ScriptRun, src: TokenSource,
                 now: string, replies: seq<Submission.Reply>)
    returns (outcome: GradingFlow.GradeOutcome)
    modifies g`fatalError, g`currentPhase, g`manualResults, g`manualTokens, g`gradingVerb
    modifies reg`questions, reg`answered, reg`events, reg`phases
    ensures call.CallNoArgs? ==> outcome.Aborted? && unchanged(g) && unchanged(reg)
    ensures call.CallWithForm? ==> FormTask(reg, g, call.form, run, src, now, replies, outcome)
  {
    match call {
      case CallNoArgs =>
        outcome := GradingFlow.Aborted;
        GradingFlow.DoneGrading(reg, g, outcome, replies);
      case CallWithForm(form) =>
        outcome := GradeForm(reg, g, form, run, src, now, replies);
    }
  }

  /**
   * What the task `do_grade(form)` and `done_grading` leave, with outcome
   * `outcome`: the question, answer and phase rows and `current_phase` as
   * `do_grade` leaves them; the events it logged, followed by the solves
   * when graded; the published results and tokens when graded, and
   * otherwise the previous ones; the verb unchanged; and `fatal_error` as
   * the submission leaves it after a posted run, and as `do_grade` leaves it
   * otherwise.
   */
  twostate predicate FormTask(reg: Registry, g: Globals, form: Dict<string>, run: Invocation -> ScriptRun,
                              src: TokenSource, now: string, replies: seq<Submission.Reply>, outcome: GradingFlow.GradeOutcome)
    reads reg, g
  {
    var log := GradingFlow.GradeLog(g.gradingParts, g.phasesEnabled, g.phaseOrder, form, run, old(reg.phases));
    var d := GradingFlow.DoGradeOf(GradingFlow.ConfigOf(g), old(GradingFlow.StateOf(reg, g)), form, run, src, now);
    outcome == d.1
    && (reg.questions, reg.answered, reg.phases, g.currentPhase) == (d.0.questions, d.0.answered, d.0.phases, d.0.current)
    && (outcome.Aborted? ==>
          (g.manualResults, g.manualTokens) == (old(g.manualResults), old(g.manualTokens))
          && reg.events == old(reg.events) + log)
    && (outcome.Graded? ==>
          (g.manualResults, g.manualTokens) == (Some(outcome.results), outcome.tokens)
          && reg.events == old(reg.events) + log + QuestionEvents(reg.questions) + PhaseEvents(reg.phases))
    && g.gradingVerb == old(g.gradingVerb)
    && g.fatalError == if outcome.Graded? && g.graderPost
                       then !Submission.Submit(old(g.gradingVerb), replies, 4, Submission.VERB_AFTER_405).0
                       else d.0.fatal
  }

  /**
   * The task `do_grade(form)` and its done callback. A refused form or a
   * missing current phase stores nothing; the "completed" phase grades
   * nothing; any other phase, or phases off, runs the script and commits its
   * results (`GradingFlow.DoGradeOf`). A graded run is then published, its
   * solves recorded after the events `do_grade` logged, and its tokens
   * posted when `grader_post` is set. The verb is never changed (see
   * `SubmitKeepsVerb`).
   */
  method GradeForm(reg: Registry, g: Globals, form: Dict<string>, run: Invocation -> ScriptRun, src: TokenSource,
                   now: string, replies: seq<Submission.Reply>)
    returns (outcome: GradingFlow.GradeOutcome)
    modifies g`fatalError, g`currentPhase, g`manualResults, g`manualTokens, g`gradingVerb
    modifies reg`questions, reg`answered, reg`events, reg`phases
    ensures FormTask(reg, g, form, run, src, now, replies, outcome)
  {
    ghost var config := (g.gradingParts, g.phasesEnabled, g.cmi5Enabled, g.phaseOrder, g.graderPost, g.gradingVerb);
    ghost var before := GradingFlow.StateOf(reg, g);
    outcome := GradingFlow.DoGrade(reg, g, form, run, src, now);
    assert (g.gradingParts, g.phasesEnabled, g.cmi5Enabled, g.phaseOrder, g.graderPost, g.gradingVerb) == config;
    ghost var d := GradingFlow.DoGradeOf(GradingFlow.ConfigOf(g), before, form, run, src, now);
    assert (GradingFlow.StateOf(reg, g), outcome) == d;
    ghost var graded := (reg.questions, reg.answered, reg.phases, reg.events, g.fatalError, g.currentPhase);
    GradingFlow.DoneGrading(reg, g, outcome, replies);
    assert (reg.questions, reg.answered, reg.phases, g.currentPhase) == (graded.0, graded.1, graded.2, graded.5);
    assert outcome.Aborted? ==> reg.events == graded.3;
    assert outcome.Aborted? || !g.graderPost ==> g.fatalError == graded.4;
    Submission.SubmitKeepsVerb(config.5, replies, 4);
  }

  /**
   * A sequence of requests; before each, the executor may have moved an
   * existing task on to `progress`.
   */
  datatype Visit = Visit(req: Request, now: int, progress: TaskState)

  function Advance(s: GradeState, p: TaskState): GradeState {
    if s.task.Some? then s.(task := Some(p)) else s
  }

  /** The state after the visits, and the times at which tasks were started. */
  function Session(c: GradeConfig, s: GradeState, visits: seq<Visit>): (GradeState, seq<int>)
    decreases |visits|
  {
    if visits == [] then (s, [])
    else
      var (s1, starts) := Session(c, s, visits[..|visits| - 1]);
      var v := visits[|visits| - 1];
      var o := GradeStep(c, Advance(s1, v.progress), v.req, v.now);
      (o.state, if o.call.Some? then starts + [v.now] else starts)
  }

  /**
   * Over any sequence of visits, the first task starts no earlier than the
   * initial submit time plus the rate limit, and each later one no earlier
   * than the previous start plus the rate limit.
   */
  lemma {:induction false} StartsAreSpaced(c: GradeConfig, s: GradeState, visits: seq<Visit>)
    ensures var (f, starts) := Session(c, s, visits);
      (starts == [] ==> f.submitTime == s.submitTime) &&
      (starts != [] ==> f.submitTime == starts[|starts| - 1] && s.submitTime + c.rate <= starts[0]) &&
      forall i :: 0 <= i < |starts| - 1 ==> starts[i] + c.rate <= starts[i + 1]
    decreases |visits|
  {
    if visits != [] {
      StartsAreSpaced(c, s, visits[..|visits| - 1]);
    }
  }

  // ---------------------------------------------------------------------------
  // tasks()

  /** `tasks()`: the plain page (grading disabled), the grouped parts, or the `KeyError` on the current phase. */
  datatype TaskList = Plain | Grouped(groups: Dict<Dict<Part>>) | PhaseMissing

  /** Which parts are listed: all (`None`), or those of the current phase. */
  predicate Visible(filter: Option<seq<string>>, k: string) {
    filter.None? || k in filter.value
  }

  /** One part: its mode gets a group if it has none, and the part joins that group when visible. */
  function AddPart(gs: Dict<Dict<Part>>, e: (string, Part), filter: Option<seq<string>>): Dict<Dict<Part>> {
    var (k, p) := e;
    var gs1 := if HasKey(gs, p.mode) then gs else Put(gs, p.mode, []);
    assert HasKey(gs1, p.mode);
    if Visible(filter, k) then Put(gs1, p.mode, Put(Get(gs1, p.mode).value, k, p)) else gs1
  }

  /** The mode groups built part by part: a group for every mode seen, holding the visible parts. */
  function Groups(parts: Dict<Part>, filter: Option<seq<string>>): (r: Dict<Dict<Part>>)
    decreases |parts|
  {
    if parts == [] then []
    else AddPart(Groups(parts[..|parts| - 1], filter), parts[|parts| - 1], filter)
  }

  lemma GroupsPrefix(parts: Dict<Part>, i: nat, filter: Option<seq<string>>)
    requires i < |parts|
    ensures Groups(parts[..i + 1], filter) == AddPart(Groups(parts[..i], filter), parts[i], filter)
  {
    assert parts[..i + 1][..i] == parts[..i] && parts[..i + 1][i] == parts[i];
  }

  /** A part looked up through its mode group. */
  function Lookup(gs: Dict<Dict<Part>>, m: string, k: string): Option<Part> {
    match Get(gs, m)
    case None => None
    case Some(d) => Get(d, k)
  }

  predicate HasMode(parts: Dict<Part>, m: string) {
    exists i :: 0 <= i < |parts| && parts[i].1.mode == m
  }

  /** There is a group for a mode exactly when some part has that mode. */
  lemma {:induction false} GroupsModes(parts: Dict<Part>, filter: Option<seq<string>>, m: string)
    ensures HasKey(Groups(parts, filter), m) <==> HasMode(parts, m)
    decreases |parts|
  {
    if parts != [] {
      var init := parts[..|parts| - 1];
      GroupsModes(init, filter, m);
      GroupsModesStep(parts, filter, m);
      HasModeSnoc(parts, m);
    }
  }

  lemma GroupsModesStep(parts: Dict<Part>, filter: Option<seq<string>>, m: string)
    requires parts != []
    ensures HasKey(Groups(parts, filter), m) <==> HasKey(Groups(parts[..|parts| - 1], filter), m) || m == parts[|parts| - 1].1.mode
  {
    var gs := Groups(parts[..|parts| - 1], filter);
    var (k, p) := parts[|parts| - 1];
    var gs1 := if HasKey(gs, p.mode) then gs else Put(gs, p.mode, []);
    assert HasKey(gs1, m) <==> HasKey(gs, m) || m == p.mode;
  }

  lemma HasModeSnoc(parts: Dict<Part>, m: string)
    requires parts != []
    ensures HasMode(parts, m) <==> HasMode(parts[..|parts| - 1], m) || m == parts[|parts| - 1].1.mode
  {
    var init := parts[..|parts| - 1];
    if HasMode(init, m) {
      var i :| 0 <= i < |init| && init[i].1.mode == m;
      assert parts[i] == init[i];
    }
    if HasMode(parts, m) {
      var i :| 0 <= i < |parts| && parts[i].1.mode == m;
      if i < |init| {
        assert parts[i] == init[i];
      }
    }
  }

  /** One snoc step of `Groups`, seen through `Lookup`. */
  lemma GroupsLookupStep(parts: Dict<Part>, filter: Option<seq<string>>, m: string, k: string)
    requires parts != []
    ensures var init := parts[..|parts| - 1];
      var (k', p') := parts[|parts| - 1];
      Lookup(Groups(parts, filter), m, k) ==
        if k == k' && m == p'.mode && Visible(filter, k') then Some(p') else Lookup(Groups(init, filter), m, k)
  {
    var init := parts[..|parts| - 1];
    var (k', p') := parts[|parts| - 1];
    var gs := Groups(init, filter);
    var gs1 := if HasKey(gs, p'.mode) then gs else Put(gs, p'.mode, []);
    if !HasKey(gs, p'.mode) {
      GetPut(gs, p'.mode, [], m);
    }
    assert Lookup(gs1, m, k) == Lookup(gs, m, k);
    if Visible(filter, k') {
      var inner := Get(gs1, p'.mode).value;
      GetPut(gs1, p'.mode, Put(inner, k', p'), m);
      GetPut(inner, k', p', k);
    }
  }

  /**
   * A part is listed under mode `m` exactly when it is configured with that
   * mode and is visible, and it is listed as configured.
   */
  lemma {:induction false} GroupsLookup(parts: Dict<Part>, filter: Option<seq<string>>, m: string, k: string)
    requires Valid(parts)
    ensures Lookup(Groups(parts, filter), m, k) ==
      if Get(parts, k).Some? && Get(parts, k).value.mode == m && Visible(filter, k) then Get(parts, k) else None
    decreases |parts|
  {
    if parts != [] {
      var init := parts[..|parts| - 1];
      var (k', p') := parts[|parts| - 1];
      LastKeyFresh(parts);
      GroupsLookup(init, filter, m, k);
      GroupsLookupStep(parts, filter, m, k);
      InitLast(parts);
      GetSnoc(init, k', p', k);
    }
  }

  /** The filter `tasks()` applies: all parts, or those of the current phase (`None` is the `KeyError`). */
  function TaskFilter(phasesEnabled: bool, phases: Dict<seq<string>>, current: Option<string>): Option<Option<seq<string>>> {
    if !phasesEnabled then Some(None)
    else if current.None? then None
    else match Get(phases, current.value)
      case None => None
      case Some(labels) => Some(Some(labels))
  }

  /** `tasks()` as a function of the state it reads. */
  function TasksOf(enabled: bool, parts: Dict<Part>, phasesEnabled: bool, phases: Dict<seq<string>>, current: Option<string>): TaskList {
    if !enabled then Plain
    else match TaskFilter(phasesEnabled, phases, current)
      case None => if parts == [] then Grouped([]) else PhaseMissing
      case Some(filter) => Grouped(Groups(parts, filter))
  }

  /** The loop body of `tasks()` once the part's visibility is known. */
  method Place(groups: Dict<Dict<Part>>, key: string, value: Part, visible: bool, ghost filter: Option<seq<string>>)
    returns (r: Dict<Dict<Part>>)
    requires visible == Visible(filter, key)
    ensures r == AddPart(groups, (key, value), filter)
  {
    r := groups;
    if !HasKey(r, value.mode) {
      r := Put(r, value.mode, []);
    }
    if visible {
      r := Put(r, value.mode, Put(Get(r, value.mode).value, key, value));
    }
  }

  /** One pass of the loop of `tasks()`, for the part at `i`, with the phase filter known. */
  method PlaceAt(groups: Dict<Dict<Part>>, parts: Dict<Part>, i: nat, filter: Option<seq<string>>)
    returns (r: Dict<Dict<Part>>)
    requires i < |parts| && groups == Groups(parts[..i], filter)
    ensures r == Groups(parts[..i + 1], filter)
  {
    var key, value := parts[i].0, parts[i].1;
    r := Place(groups, key, value, Visible(filter, key), filter);
    GroupsPrefix(parts, i, filter);
  }

  method Tasks(g: Globals) returns (r: TaskList)
    ensures r == TasksOf(g.gradingEnabled, g.gradingParts, g.phasesEnabled, g.phases, g.currentPhase)
  {
    if !g.gradingEnabled {
      return Plain;
    }
    r := GroupTasks(g.gradingParts, g.phasesEnabled, g.phases, g.currentPhase);
  }

  /** `tasks()` with grading on. */
  method GroupTasks(parts: Dict<Part>, phasesEnabled: bool, phases: Dict<seq<string>>, current: Option<string>)
    returns (r: TaskList)
    ensures r == TasksOf(true, parts, phasesEnabled, phases, current)
  {
    // The lookup of the current phase's labels is the same on every pass of
    // the loop; it raises on the first pass, so only when there are parts.
    var shown := TaskFilter(phasesEnabled, phases, current);
    if shown.None? {
      return if parts == [] then Grouped([]) else PhaseMissing;
    }
    var groups := GroupParts(parts, shown.value);
    r := Grouped(groups);
  }

  /** The loop of `tasks()` over the parts, once the labels shown are known. */
  method GroupParts(parts: Dict<Part>, filter: Option<seq<string>>) returns (groups: Dict<Dict<Part>>)
    ensures groups == Groups(parts, filter)
  {
    groups := [];
    var i := 0;
    while i < |parts|
      invariant 0 <= i <= |parts|
      invariant groups == Groups(parts[..i], filter)
    {
      groups := PlaceAt(groups, parts, i, filter);
      i := i + 1;
    }
    PrefixAll(parts);
  }

  // ---------------------------------------------------------------------------
  // updated_results()

  /** Shown after "--": a response that is neither empty nor "N/A". */
  predicate Shown(response: string) {
    response != "" && response != "N/A"
  }

  /** The status a question row is displayed with on the results page. */
  function Display(row: QuestionRow): (r: string)
    ensures IsPrefix("Success", r) <==> row.solved
    ensures row.solved && !Shown(row.response) ==> r == "Success"
    ensures !row.solved && row.response == "N/A" ==> r == "Failure"
    ensures Shown(row.response) ==> r == (if row.solved then "Success" else "Failure") + " -- " + row.response
    ensures !row.solved && row.response == "" ==> r == "Failure -- Has not been graded yet."
  {
    var r := if row.solved then (if Shown(row.response) then "Success -- " + row.response else "Success")
      else if row.response == "N/A" then "Failure"
      else if row.response != "" then "Failure -- " + row.response
      else "Failure -- Has not been graded yet.";
    assert r[0] == if row.solved then 'S' else 'F';
    r
  }

  /** The displayed response can be read back after the 11-character status prefix. */
  lemma DisplayResponse(row: QuestionRow)
    requires Shown(row.response)
    ensures |Display(row)| == 11 + |row.response| && Display(row)[11..] == row.response
  {
  }

  /** The results and tokens being built, and `fatal_error`. */
  datatype ResultsView = ResultsView(cron: Dict<string>, manual: Dict<string>, cronTokens: Dict<string>,
                                     manualTokens: Dict<string>, fatal: bool)

  /** What the walk reads: the question rows, the phases, the current phase and what reading a token needs. */
  datatype WalkContext = WalkContext(qs: seq<QuestionRow>, phases: Dict<seq<string>>, current: Option<string>,
                                     parts: Dict<Part>, src: TokenSource, graderPost: bool)

  /**
   * One question row: a cron question into the cron results, a manual one
   * into the manual results, a solved one also getting its token read; rows
   * of any other type are skipped.
   */
  function ShowRow(v: ResultsView, row: QuestionRow, ctx: WalkContext): (r: ResultsView)
    ensures row.qType != "cron" && row.qType !in MANUAL_MODE ==> r == v
  {
    var t := ReadToken(ctx.parts, ctx.src, row.name);
    var fatal := v.fatal || (t.1 && ctx.graderPost);
    if row.qType == "cron" then
      if row.solved then v.(cronTokens := Put(v.cronTokens, row.name, t.0), fatal := fatal, cron := Put(v.cron, row.name, Display(row)))
      else v.(cron := Put(v.cron, row.name, Display(row)))
    else if row.qType in MANUAL_MODE then
      if row.solved then v.(manualTokens := Put(v.manualTokens, row.name, t.0), fatal := fatal, manual := Put(v.manual, row.name, Display(row)))
      else v.(manual := Put(v.manual, row.name, Display(row)))
    else v
  }

  /** The questions of one phase in order; `false` is the exception a label without a row raises. */
  function ShowLabels(v: ResultsView, labels: seq<string>, ctx: WalkContext): (ResultsView, bool)
    decreases |labels|
  {
    if labels == [] then (v, true)
    else
      var (w, ok) := ShowLabels(v, labels[..|labels| - 1], ctx);
      if !ok then (w, false)
      else match FindQuestion(ctx.qs, labels[|labels| - 1])
        case None => (w, false)
        case Some(i) => (ShowRow(w, ctx.qs[i], ctx), true)
  }

  /** The phases in order, stopping after the current phase or after an exception. */
  function ShowPhases(v: ResultsView, order: seq<string>, ctx: WalkContext): ResultsView
    decreases |order|
  {
    if order == [] then v
    else match Get(ctx.phases, order[0])
      case None => v
      case Some(labels) =>
        var (w, ok) := ShowLabels(v, labels, ctx);
        if !ok || ctx.current == Some(order[0]) then w else ShowPhases(w, order[1..], ctx)
  }

  /** Phases after the current one are never shown. */
  lemma {:induction false} ShowPhasesStopsAtCurrent(v: ResultsView, order: seq<string>, ctx: WalkContext, i: nat)
    requires i < |order| && ctx.current == Some(order[i])
    ensures ShowPhases(v, order, ctx) == ShowPhases(v, order[..i + 1], ctx)
    decreases i
  {
    if i > 0 {
      var prefix := order[..i + 1];
      assert prefix[0] == order[0] && prefix[1..] == order[1..][..i];
      match Get(ctx.phases, order[0])
      case None =>
      case Some(labels) =>
        var (w, ok) := ShowLabels(v, labels, ctx);
        if ok && ctx.current != Some(order[0]) {
          assert order[1..][i - 1] == order[i];
          ShowPhasesStopsAtCurrent(w, order[1..], ctx, i - 1);
        }
    }
  }

  lemma {:induction false} ShowLabelsFailStays(v: ResultsView, labels: seq<string>, ctx: WalkContext, n: nat)
    requires n <= |labels| && !ShowLabels(v, labels[..n], ctx).1
    ensures ShowLabels(v, labels, ctx) == ShowLabels(v, labels[..n], ctx)
    decreases |labels| - n
  {
    if n < |labels| {
      assert labels[..n + 1][..n] == labels[..n];
      ShowLabelsFailStays(v, labels, ctx, n + 1);
    } else {
      assert labels[..n] == labels;
    }
  }

  /** One more label, once the labels before it were shown without an exception. */
  lemma ShowLabelsStep(v: ResultsView, labels: seq<string>, ctx: WalkContext, n: nat)
    requires n < |labels| && ShowLabels(v, labels[..n], ctx).1
    ensures FindQuestion(ctx.qs, labels[n]).None? ==>
      ShowLabels(v, labels[..n + 1], ctx) == (ShowLabels(v, labels[..n], ctx).0, false)
    ensures FindQuestion(ctx.qs, labels[n]).Some? ==>
      ShowLabels(v, labels[..n + 1], ctx) ==
        (ShowRow(ShowLabels(v, labels[..n], ctx).0, ctx.qs[FindQuestion(ctx.qs, labels[n]).value], ctx), true)
  {
    assert labels[..n + 1][..n] == labels[..n];
  }

  /** Showing a row changes the manual results only at that row's label. */
  lemma ShowRowManual(w: ResultsView, row: QuestionRow, ctx: WalkContext, k: string)
    ensures Get(ShowRow(w, row, ctx).manual, k) ==
      if row.qType != "cron" && row.qType in MANUAL_MODE && k == row.name then Some(Display(row)) else Get(w.manual, k)
  {
    if row.qType != "cron" && row.qType in MANUAL_MODE {
      GetPut(w.manual, row.name, Display(row), k);
    }
  }

  /**
   * After a phase walked without an exception, every manual question of the
   * phase is displayed by its row's status.
   */
  lemma {:induction false} ShowLabelsShowsManual(v: ResultsView, labels: seq<string>, ctx: WalkContext, j: nat)
    requires j < |labels| && ShowLabels(v, labels, ctx).1
    ensures FindQuestion(ctx.qs, labels[j]).Some?
    ensures var row := ctx.qs[FindQuestion(ctx.qs, labels[j]).value];
      row.qType in MANUAL_MODE ==> Get(ShowLabels(v, labels, ctx).0.manual, labels[j]) == Some(Display(row))
    decreases |labels|
  {
    var n := |labels| - 1;
    var init := labels[..n];
    var k := labels[j];
    ShowLabelsManualLast(v, labels, ctx, k);
    if j < n {
      assert init[j] == k;
      ShowLabelsShowsManual(v, init, ctx, j);
      assert FindQuestion(ctx.qs, k).Some?;
    } else {
      assert j == n;
    }
  }

  /** The manual results after the last label of a phase shown without an exception. */
  lemma ShowLabelsManualLast(v: ResultsView, labels: seq<string>, ctx: WalkContext, k: string)
    requires labels != [] && ShowLabels(v, labels, ctx).1
    ensures var n := |labels| - 1;
      ShowLabels(v, labels[..n], ctx).1 && FindQuestion(ctx.qs, labels[n]).Some? &&
      var row := ctx.qs[FindQuestion(ctx.qs, labels[n]).value];
      Get(ShowLabels(v, labels, ctx).0.manual, k) ==
        if row.qType in MANUAL_MODE && k == labels[n] then Some(Display(row))
        else Get(ShowLabels(v, labels[..n], ctx).0.manual, k)
  {
    var n := |labels| - 1;
    ShowLabelsLast(v, labels, ctx);
    ShowRowManual(ShowLabels(v, labels[..n], ctx).0, ctx.qs[FindQuestion(ctx.qs, labels[n]).value], ctx, k);
  }

  /** The last label of a phase shown without an exception has a row, and is shown after the others. */
  lemma ShowLabelsLast(v: ResultsView, labels: seq<string>, ctx: WalkContext)
    requires labels != [] && ShowLabels(v, labels, ctx).1
    ensures var n := |labels| - 1;
      ShowLabels(v, labels[..n], ctx).1 && FindQuestion(ctx.qs, labels[n]).Some? &&
      ShowLabels(v, labels, ctx).0 ==
        ShowRow(ShowLabels(v, labels[..n], ctx).0, ctx.qs[FindQuestion(ctx.qs, labels[n]).value], ctx) &&
      ctx.qs[FindQuestion(ctx.qs, labels[n]).value].name == labels[n]
  {
  }

  const RESULTS_REFERRER: string := "https://skills.hub/lab/results"

  /** Seconds in a day: a submit time on 01/01/1900 formats with "01/01/1900" in it. */
  const DAY: int := 86400

  predicate OnInitialDay(t: int) {
    0 <= t < DAY
  }

  /** The JSON body of `/update`. */
  datatype UpdateReply =
    | Unauthorized
    | Snapshot(manualEnabled: bool, cronEnabled: bool, cronSubmitTime: int, manualSubmitTime: int,
               cronResults: Option<Dict<string>>, manualResults: Option<Dict<string>>, parts: Dict<Part>,
               manualTokens: Dict<string>, cronTokens: Dict<string>, fatal: bool)

  function ViewOf(g: Globals, cron: Dict<string>, manual: Dict<string>): ResultsView
    reads g`cronTokens, g`manualTokens, g`fatalError
  {
    ResultsView(cron, manual, g.cronTokens, g.manualTokens, g.fatalError)
  }

  /** One question row, reading the token into `globals.tokens`. */
  method ShowQuestion(g: Globals, ctx: WalkContext, row: QuestionRow, cron: Dict<string>, manual: Dict<string>)
    returns (cron': Dict<string>, manual': Dict<string>)
    modifies g`cronTokens, g`manualTokens, g`fatalError
    ensures ViewOf(g, cron', manual') == ShowRow(old(ViewOf(g, cron, manual)), row, ctx)
  {
    cron', manual' := cron, manual;
    if row.qType == "cron" {
      if row.solved {
        var (token, bad) := ReadToken(ctx.parts, ctx.src, row.name);
        if bad && ctx.graderPost {
          g.fatalError := true;
        }
        g.cronTokens := Put(g.cronTokens, row.name, token);
      }
      cron' := Put(cron, row.name, Display(row));
    } else if row.qType in MANUAL_MODE {
      if row.solved {
        var (token, bad) := ReadToken(ctx.parts, ctx.src, row.name);
        if bad && ctx.graderPost {
          g.fatalError := true;
        }
        g.manualTokens := Put(g.manualTokens, row.name, token);
      }
      manual' := Put(manual, row.name, Display(row));
    }
  }

  /** The inner loop over a phase's questions; `ok` is false when a label has no row. */
  method ShowPhase(g: Globals, ctx: WalkContext, labels: seq<string>, cron: Dict<string>, manual: Dict<string>)
    returns (cron': Dict<string>, manual': Dict<string>, ok: bool)
    modifies g`cronTokens, g`manualTokens, g`fatalError
    ensures (ViewOf(g, cron', manual'), ok) == ShowLabels(old(ViewOf(g, cron, manual)), labels, ctx)
  {
    ghost var v0 := ViewOf(g, cron, manual);
    cron', manual' := cron, manual;
    var i := 0;
    while i < |labels|
      invariant 0 <= i <= |labels|
      invariant (ViewOf(g, cron', manual'), true) == ShowLabels(v0, labels[..i], ctx)
    {
      ghost var w := ViewOf(g, cron', manual');
      var found := FindQuestion(ctx.qs, labels[i]);
      if found.None? {
        ShowLabelsStep(v0, labels, ctx, i);
        ShowLabelsFailStays(v0, labels, ctx, i + 1);
        return cron', manual', false;
      }
      cron', manual' := ShowQuestion(g, ctx, ctx.qs[found.value], cron', manual');
      assert ViewOf(g, cron', manual') == ShowRow(w, ctx.qs[found.value], ctx);
      ShowLabelsStep(v0, labels, ctx, i);
      i := i + 1;
    }
    assert labels[..i] == labels;
    ok := true;
  }

  /** The outer loop over `phase_order`. */
  method WalkPhases(g: Globals, ctx: WalkContext, order: seq<string>, cron: Dict<string>, manual: Dict<string>)
    returns (cron': Dict<string>, manual': Dict<string>)
    modifies g`cronTokens, g`manualTokens, g`fatalError
    ensures ViewOf(g, cron', manual') == ShowPhases(old(ViewOf(g, cron, manual)), order, ctx)
  {
    cron', manual' := cron, manual;
    var i := 0;
    while i < |order|
      invariant 0 <= i <= |order|
      invariant ShowPhases(old(ViewOf(g, cron, manual)), order, ctx) == ShowPhases(ViewOf(g, cron', manual'), order[i..], ctx)
    {
      var labels := Get(ctx.phases, order[i]);
      if labels.None? {
        return;
      }
      var ok;
      cron', manual', ok := ShowPhase(g, ctx, labels.value, cron', manual');
      if !ok || ctx.current == Some(order[i]) {
        return;
      }
      assert order[i..][1..] == order[i + 1..];
      i := i + 1;
    }
  }

  /** A submit time still on 01/01/1900 is replaced by now. */
  function Refreshed(t: int, now: int): int {
    if OnInitialDay(t) then now else t
  }

  /** Submit times still on 01/01/1900 become now. */
  method RefreshSubmitTimes(g: Globals, now: int)
    modifies g`manualSubmitTime, g`cronSubmitTime
    ensures g.manualSubmitTime == Refreshed(old(g.manualSubmitTime), now)
    ensures g.cronSubmitTime == Refreshed(old(g.cronSubmitTime), now)
  {
    if OnInitialDay(g.manualSubmitTime) {
      g.manualSubmitTime := now;
    }
    if OnInitialDay(g.cronSubmitTime) {
      g.cronSubmitTime := now;
    }
  }

  /** The reply `updated_results()` builds around the results it shows. */
  function SnapshotOf(g: Globals, cron: Option<Dict<string>>, manual: Option<Dict<string>>): UpdateReply
    reads g
  {
    Snapshot("manual" in g.gradingMode, "cron" in g.gradingMode, g.cronSubmitTime, g.manualSubmitTime,
             cron, manual, g.gradingParts, g.manualTokens, g.cronTokens, g.fatalError)
  }

  /** What the phase walk shows, started from the stored results and the globals' tokens. */
  function PhasedView(g: Globals, reg: Registry, src: TokenSource): ResultsView
    reads g, reg
  {
    ShowPhases(ViewOf(g, g.cronResults.GetOr([]), g.manualResults.GetOr([])), g.phaseOrder,
               WalkContext(reg.questions, g.phases, g.currentPhase, g.gradingParts, src, g.graderPost))
  }

  /** The phased branch of `updated_results()`. */
  method PhasedSnapshot(g: Globals, reg: Registry, src: TokenSource, now: int) returns (reply: UpdateReply)
    modifies g`cronTokens, g`manualTokens, g`fatalError, g`manualSubmitTime, g`cronSubmitTime
    ensures var v := old(PhasedView(g, reg, src));
      (g.cronTokens, g.manualTokens, g.fatalError) == (v.cronTokens, v.manualTokens, v.fatal) &&
      reply == SnapshotOf(g, Some(v.cron), Some(v.manual))
    ensures g.manualSubmitTime == Refreshed(old(g.manualSubmitTime), now)
    ensures g.cronSubmitTime == Refreshed(old(g.cronSubmitTime), now)
  {
    var ctx := WalkContext(reg.questions, g.phases, g.currentPhase, g.gradingParts, src, g.graderPost);
    var cron, manual := WalkPhases(g, ctx, g.phaseOrder, g.cronResults.GetOr([]), g.manualResults.GetOr([]));
    RefreshSubmitTimes(g, now);
    reply := SnapshotOf(g, Some(cron), Some(manual));
  }

  /**
   * `updated_results()`: only the results page may ask. With phases, the
   * results are rebuilt from the question rows of the phases walked, and a
   * submit time still on 01/01/1900 becomes now; without, the stored results
   * are returned as they are.
   */
  method UpdatedResults(g: Globals, reg: Registry, src: TokenSource, referrer: string, now: int) returns (reply: UpdateReply)
    modifies g`cronTokens, g`manualTokens, g`fatalError, g`manualSubmitTime, g`cronSubmitTime
    ensures referrer != RESULTS_REFERRER ==> reply == Unauthorized && unchanged(g)
    ensures referrer == RESULTS_REFERRER && !g.phasesEnabled ==>
      unchanged(g) && reply == SnapshotOf(g, g.cronResults, g.manualResults)
    ensures referrer == RESULTS_REFERRER && g.phasesEnabled ==>
      var v := old(PhasedView(g, reg, src));
      (g.cronTokens, g.manualTokens, g.fatalError) == (v.cronTokens, v.manualTokens, v.fatal) &&
      reply == SnapshotOf(g, Some(v.cron), Some(v.manual)) &&
      g.manualSubmitTime == Refreshed(old(g.manualSubmitTime), now) &&
      g.cronSubmitTime == Refreshed(old(g.cronSubmitTime), now)
  {
    if referrer != RESULTS_REFERRER {
      return Unauthorized;
    }
    if !g.phasesEnabled {
      return SnapshotOf(g, g.cronResults, g.manualResults);
    }
    reply := PhasedSnapshot(g, reg, src, now);
  }
}
