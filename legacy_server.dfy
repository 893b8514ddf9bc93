/**
 * The routes of the legacy server: the mode dispatch of `/`, the
 * single-flight, rate-limited `/grade` handler, and the filter that picks
 * the hosted files. The clock is a parameter in microseconds, since
 * `datetime.now()` carries them while the stored submit time keeps whole
 * seconds; the executor is the `task` field and the progress the caller
 * reports.
 */
module LegacyServer {
  import opened Outcomes
  import opened Dicts
  import opened AppGlobals
  import opened Uploads
  import opened LegacyConfig

  // ---------------------------------------------------------------------------
  // home()

  /** What `/` returns. `HomeIndexError` is the `IndexError` of `list(parts)[0]`, `NoPage` the `None` of an unknown mode. */
  datatype HomePage =
    | FilesRedirect
    | AllDisabled
    | StartingUp
    | ButtonPage
    | TextPage(parts: Dict<Part>)
    | CronPage(results: Option<Dict<string>>, tokens: Option<Dict<string>>, parts: Dict<Part>,
               submitTime: int, limit: Option<int>, interval: Option<int>)
    | HomeIndexError
    | NoPage

  /** A page that needs grading enabled and the server ready. */
  predicate GradingShown(p: HomePage) {
    p.ButtonPage? || p.TextPage? || p.CronPage?
  }

  /**
   * `home()`: with grading off, the file list or the disabled notice; before
   * the server is ready, the start-up notice; otherwise the page of the
   * grading mode, where `text_single` shows the first configured part only.
   */
  function Home(g: LegacyGlobals): (r: HomePage)
    reads g
    ensures GradingShown(r) ==> g.gradingEnabled && g.serverReady
    ensures !g.gradingEnabled ==> (r == FilesRedirect <==> g.hostedFilesEnabled) && (r == AllDisabled <==> !g.hostedFilesEnabled)
    ensures r == StartingUp <==> g.gradingEnabled && !g.serverReady
    ensures r.TextPage? <==> (g.gradingEnabled && g.serverReady &&
      (g.gradingMode == Some("text") || (g.gradingMode == Some("text_single") && g.gradingParts != [])))
    ensures r.TextPage? && g.gradingMode == Some("text_single") ==> |r.parts| == 1 && r.parts[0] == g.gradingParts[0]
    ensures r.TextPage? && g.gradingMode == Some("text") ==> r.parts == g.gradingParts
    ensures r == HomeIndexError <==> g.gradingEnabled && g.serverReady && g.gradingMode == Some("text_single") && g.gradingParts == []
    ensures r == NoPage <==> (g.gradingEnabled && g.serverReady &&
      (g.gradingMode.None? || g.gradingMode.value !in ["button", "text", "text_single", "cron"]))
  {
    if !g.gradingEnabled then
      if g.hostedFilesEnabled then FilesRedirect else AllDisabled
    else if !g.serverReady then StartingUp
    else if g.gradingMode == Some("button") then ButtonPage
    else if g.gradingMode == Some("text") then TextPage(g.gradingParts)
    else if g.gradingMode == Some("text_single") then
      if g.gradingParts == [] then HomeIndexError else TextPage(g.gradingParts[..1])
    else if g.gradingMode == Some("cron") then
      CronPage(g.results, g.tokens, g.gradingParts, g.submitTime, g.cronLimit, g.cronInterval)
    else NoPage
  }

  /**
   * The single part `text_single` shows is the first configured part, with
   * its own settings: looking its label up in the shown page finds what the
   * configuration holds for it.
   */
  lemma TextSingleShowsFirstPart(g: LegacyGlobals)
    requires g.gradingEnabled && g.serverReady && g.gradingMode == Some("text_single")
    requires Valid(g.gradingParts) && g.gradingParts != []
    ensures var k := g.gradingParts[0].0;
      Home(g).TextPage? && Keys(Home(g).parts) == [k] && Get(Home(g).parts, k) == Get(g.gradingParts, k)
  {
    var k := g.gradingParts[0].0;
    assert Get(g.gradingParts, k) == Some(g.gradingParts[0].1);
  }

  // ---------------------------------------------------------------------------
  // grade()

  /** Microseconds in a second. */
  const MICROS: int := 1000000

  /** The HTTP method of a `/grade` request, with the submitted form for POST. */
  datatype GradeMethod = GetMethod | PostMethod(form: Dict<string>)

  /** What the submitted task runs: `do_grade()`, or `do_grade(*form.values())`. */
  datatype GradeCall = NoArgs | WithArgs(args: seq<string>)

  /**
   * What `/grade` returns: the no-grading page, the start-up notice, the
   * graded page with a wait in seconds, the grading page with the submit
   * time, the graded or auto-submit page of a finished task, or nothing.
   */
  datatype LegacyGradePage =
    | NoGradingPage
    | StartingUpPage
    | WaitPage(tryAgain: int)
    | PollingPage(submitTime: int)
    | GradedPage
    | AutoSubmitPage(submitTime: int)
    | Unanswered

  /** What `grade()` reads but never changes; `display` is `submission_method == 'display'`. */
  datatype LegacyGradeConfig = LegacyGradeConfig(enabled: bool, ready: bool, rate: int, display: bool)

  /** What `grade()` changes: `task` and `globals.submit_time`, in whole seconds. */
  datatype LegacyGradeState = LegacyGradeState(task: Option<TaskState>, submitTime: int)

  datatype LegacyGradeOutcome = LegacyGradeOutcome(page: LegacyGradePage, state: LegacyGradeState, call: Option<GradeCall>)

  function CallOf(m: GradeMethod): (r: GradeCall)
    ensures m.PostMethod? <==> r.WithArgs?
    ensures m.PostMethod? ==> r.args == Values(m.form)
  {
    match m
    case GetMethod => NoArgs
    case PostMethod(form) => WithArgs(Values(form))
  }

  /** `int(x)` on a number of seconds: truncation toward zero. */
  function TruncSeconds(micros: int): (r: int)
    ensures micros >= 0 ==> r * MICROS <= micros < (r + 1) * MICROS
    ensures micros < 0 ==> r == -((-micros) / MICROS)
  {
    if micros >= 0 then micros / MICROS else -((-micros) / MICROS)
  }

  /** `submit_time + rate_limit > now`, the stored time read back as a whole second. */
  predicate RateLimited(c: LegacyGradeConfig, s: LegacyGradeState, now: nat) {
    s.submitTime * MICROS + c.rate * MICROS > now
  }

  /** `int((rate_limit - (now - submit_time)).total_seconds())`. */
  function TryAgain(c: LegacyGradeConfig, s: LegacyGradeState, now: nat): int {
    TruncSeconds(c.rate * MICROS - (now - s.submitTime * MICROS))
  }

  /**
   * One request to `/grade` at `now` microseconds. A task starts only when
   * grading is enabled, the server ready, no task exists and the rate limit
   * has passed; the submit time then becomes `now` cut to the second. A
   * finished task is cleared; a running one keeps the grading page; a
   * queued one gets no response.
   */
  function LegacyGradeStep(c: LegacyGradeConfig, s: LegacyGradeState, m: GradeMethod, now: nat): (r: LegacyGradeOutcome)
    ensures r.call.Some? <==> c.enabled && c.ready && s.task.None? && !RateLimited(c, s, now)
    ensures r.call.Some? ==> (r.call.value == CallOf(m) && r.state == LegacyGradeState(Some(Pending), now / MICROS) &&
      r.page == PollingPage(now / MICROS))
    ensures r.page.WaitPage? <==> c.enabled && c.ready && s.task.None? && RateLimited(c, s, now)
    ensures r.page.WaitPage? ==> r.page.tryAgain == TryAgain(c, s, now)
    ensures r.call.None? ==> r.state.submitTime == s.submitTime
    ensures r.call.None? && r.state != s ==> (s.task == Some(Finished) && r.state.task.None? &&
      (r.page == GradedPage <==> c.display) && (!c.display ==> r.page == AutoSubmitPage(s.submitTime)))
    ensures !c.enabled ==> r == LegacyGradeOutcome(NoGradingPage, s, None)
  {
    if !c.enabled then LegacyGradeOutcome(NoGradingPage, s, None)
    else if !c.ready then LegacyGradeOutcome(StartingUpPage, s, None)
    else if s.task.None? then
      if RateLimited(c, s, now) then LegacyGradeOutcome(WaitPage(TryAgain(c, s, now)), s, None)
      else
        var t := now / MICROS;
        LegacyGradeOutcome(PollingPage(t), LegacyGradeState(Some(Pending), t), Some(CallOf(m)))
    else if s.task.value == Finished then
      LegacyGradeOutcome(if c.display then GradedPage else AutoSubmitPage(s.submitTime), LegacyGradeState(None, s.submitTime), None)
    else if s.task.value == Running then LegacyGradeOutcome(PollingPage(s.submitTime), s, None)
    else LegacyGradeOutcome(Unanswered, s, None)
  }

  /**
   * The wait shown lies between 0 and the rate limit when the last submit
   * is not in the future: it is the full limit only when the request comes
   * on the very microsecond of the stored second.
   */
  lemma TryAgainBounds(c: LegacyGradeConfig, s: LegacyGradeState, now: nat)
    requires RateLimited(c, s, now) && s.submitTime * MICROS <= now
    ensures 0 <= TryAgain(c, s, now) <= c.rate
    ensures TryAgain(c, s, now) == c.rate <==> now == s.submitTime * MICROS
  {
    var a := c.rate * MICROS - (now - s.submitTime * MICROS);
    assert 0 < a <= c.rate * MICROS;
    var t := TryAgain(c, s, now);
    assert t * MICROS <= a < (t + 1) * MICROS;
  }

  /** Less than a second before the limit ends, the page still says to wait, for 0 seconds. */
  lemma TryAgainCanBeZero()
    ensures var c := LegacyGradeConfig(true, true, 1, true);
      var s := LegacyGradeState(None, 0);
      RateLimited(c, s, 999999) && TryAgain(c, s, 999999) == 0
  {
  }

  /** `grade()` over the fields it reads and the two it changes. */
  method LegacyGrade(g: LegacyGlobals, m: GradeMethod, now: nat) returns (page: LegacyGradePage, call: Option<GradeCall>)
    modifies g`task, g`submitTime
    ensures var o := LegacyGradeStep(LegacyGradeConfig(g.gradingEnabled, g.serverReady, g.rateLimit, g.submissionMethod == Some("display")),
                                     LegacyGradeState(old(g.task), old(g.submitTime)), m, now);
      LegacyGradeOutcome(page, LegacyGradeState(g.task, g.submitTime), call) == o
  {
    call := None;
    if !g.gradingEnabled {
      return NoGradingPage, None;
    }
    if !g.serverReady {
      return StartingUpPage, None;
    }
    if g.task.None? {
      if g.submitTime * MICROS + g.rateLimit * MICROS > now {
        var tryAgain := TruncSeconds(g.rateLimit * MICROS - (now - g.submitTime * MICROS));
        return WaitPage(tryAgain), None;
      }
      g.submitTime := now / MICROS;
      call := Some(CallOf(m));
      g.task := Some(Pending);
      return PollingPage(g.submitTime), call;
    }
    if g.task.value == Finished {
      g.task := None;
      if g.submissionMethod == Some("display") {
        return GradedPage, None;
      }
      return AutoSubmitPage(g.submitTime), None;
    }
    if g.task.value == Running {
      return PollingPage(g.submitTime), None;
    }
    page := Unanswered;
  }

  /** A request, after the executor has moved an existing task on to `progress`. */
  datatype LegacyVisit = LegacyVisit(m: GradeMethod, now: nat, progress: TaskState)

  function LegacyAdvance(s: LegacyGradeState, p: TaskState): LegacyGradeState {
    if s.task.Some? then s.(task := Some(p)) else s
  }

  /** The state after the visits, and the stored second of each task started. */
  function LegacySession(c: LegacyGradeConfig, s: LegacyGradeState, visits: seq<LegacyVisit>): (LegacyGradeState, seq<int>)
    decreases |visits|
  {
    if visits == [] then (s, [])
    else
      var (s1, starts) := LegacySession(c, s, visits[..|visits| - 1]);
      var v := visits[|visits| - 1];
      var o := LegacyGradeStep(c, LegacyAdvance(s1, v.progress), v.m, v.now);
      (o.state, if o.call.Some? then starts + [v.now / MICROS] else starts)
  }

  /** A whole second whose start is not after `now` is at most `now` cut to the second. */
  lemma SecondBound(t: int, now: nat)
    requires t * MICROS <= now
    ensures t <= now / MICROS
  {
    assert now == (now / MICROS) * MICROS + now % MICROS;
  }

  /**
   * Over any sequence of visits, the stored seconds of the tasks started are
   * at least the rate limit apart, the first at least that far from the
   * initial submit time, however the microseconds fall.
   */
  lemma {:induction false} LegacyStartsAreSpaced(c: LegacyGradeConfig, s: LegacyGradeState, visits: seq<LegacyVisit>)
    ensures var (f, starts) := LegacySession(c, s, visits);
      (starts == [] ==> f.submitTime == s.submitTime) &&
      (starts != [] ==> f.submitTime == starts[|starts| - 1] && s.submitTime + c.rate <= starts[0]) &&
      forall i :: 0 <= i < |starts| - 1 ==> starts[i] + c.rate <= starts[i + 1]
    decreases |visits|
  {
    if visits != [] {
      var (s1, starts1) := LegacySession(c, s, visits[..|visits| - 1]);
      LegacyStartsAreSpaced(c, s, visits[..|visits| - 1]);
      var v := visits[|visits| - 1];
      var a := LegacyAdvance(s1, v.progress);
      var o := LegacyGradeStep(c, a, v.m, v.now);
      if o.call.Some? {
        assert (a.submitTime + c.rate) * MICROS <= v.now;
        SecondBound(a.submitTime + c.rate, v.now);
      }
    }
  }

  // ---------------------------------------------------------------------------
  // get_file_list()

  /** One name `os.listdir` returns, and whether `os.path.isfile` holds for its path. */
  datatype DirEntry = DirEntry(name: string, isFile: bool)

  /** A regular file whose name does not start with '.'. */
  predicate Listed(e: DirEntry) {
    e.isFile && e.name != [] && e.name[0] != '.'
  }

  /** The file list over the entries in listing order: name to joined path. */
  function FileList(dir: string, entries: seq<DirEntry>): Dict<string> {
    if entries == [] then []
    else
      var prev := FileList(dir, entries[..|entries| - 1]);
      var e := entries[|entries| - 1];
      if Listed(e) then Put(prev, e.name, PathJoin(dir, e.name)) else prev
  }

  /** The names of the listed entries, defined without regard to order. */
  function ListedNames(entries: seq<DirEntry>): set<string> {
    set e | e in entries && Listed(e) :: e.name
  }

  /**
   * A name is in the list exactly when some entry of that name is listed,
   * and it maps to the directory joined with the name.
   */
  lemma {:induction false} FileListGet(dir: string, entries: seq<DirEntry>, k: string)
    ensures Get(FileList(dir, entries), k) == if k in ListedNames(entries) then Some(PathJoin(dir, k)) else None
    decreases |entries|
  {
    if entries != [] {
      var init := entries[..|entries| - 1];
      var e := entries[|entries| - 1];
      FileListGet(dir, init, k);
      assert entries == init + [e];
      assert ListedNames(entries) == ListedNames(init) + if Listed(e) then {e.name} else {};
      if Listed(e) {
        GetPut(FileList(dir, init), e.name, PathJoin(dir, e.name), k);
      }
    }
  }

  /** No hidden name and no directory ever appears in the list. */
  lemma FileListHidesDotFiles(dir: string, entries: seq<DirEntry>, e: DirEntry)
    requires e in entries && (!e.isFile || (e.name != [] && e.name[0] == '.'))
    requires forall f :: f in entries && f.name == e.name ==> f == e
    ensures Get(FileList(dir, entries), e.name).None?
  {
    FileListGet(dir, entries, e.name);
    assert e.name !in ListedNames(entries);
  }

  /** `get_file_list()` over the listing of the hosted-files directory. */
  method GetFileList(dir: string, entries: seq<DirEntry>) returns (files: Dict<string>)
    ensures files == FileList(dir, entries)
  {
    files := [];
    var i := 0;
    while i < |entries|
      invariant 0 <= i <= |entries|
      invariant files == FileList(dir, entries[..i])
    {
      assert entries[..i + 1][..i] == entries[..i];
      var e := entries[i];
      if e.isFile && e.name != [] && e.name[0] != '.' {
        files := Put(files, e.name, PathJoin(dir, e.name));
      }
      i := i + 1;
    }
    assert entries[..i] == entries;
  }
}
