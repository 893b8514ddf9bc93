/**
 * The cmi5 reporting helpers: the xAPI "answered" statement built for a
 * graded question, the PUT that sends it (answered 204 No Content by the
 * Statement Resource of xAPI 1.0.3, Part Three, section 2.1), and the
 * context with the cmi5-defined categories merged in. JSON values are the
 * `Json` datatype; objects keep their insertion order as Python dicts do.
 */
module Cmi5 {
  import opened Outcomes
  import opened Dicts
  import opened AppGlobals
  import opened Tracking
  import opened Submission

  /** A JSON value, as `json` encodes Python values. */
  datatype Json =
    | JNull
    | JBool(b: bool)
    | JNum(n: int)
    | JStr(s: string)
    | JArr(items: seq<Json>)
    | JObj(fields: seq<(string, Json)>)

  /** The cmi5 settings `read_config` leaves in the shared state. */
  datatype Cmi5Settings = Cmi5Settings(enabled: bool, endpoint: string, authToken: string,
                                       activityId: string, actor: Json, context: Dict<Json>)

  /** One option of a multiple-choice interaction; its description is the "en-US" entry. */
  datatype Choice = Choice(id: string, description: string)

  /** The activity definition of a question; `name` and `description` are "en-US" entries. */
  datatype Definition = Definition(name: string, description: string, interactionType: string,
                                   typeUri: string, choices: Option<seq<Choice>>)

  /**
   * An xAPI statement as `cmi5_send_answered` builds it: the verb, the
   * activity with its definition, the result and the context.
   */
  datatype Statement = Statement(id: string, actor: Json, verbId: string, verbDisplay: string,
                                 objectType: string, activityId: string, definition: Definition,
                                 success: bool, response: string, context: Dict<Json>, timestamp: string)

  const INTERACTION_TYPE_URI: string := "http://adlnet.gov/expapi/activities/cmi.interaction"
  const ANSWERED_VERB: string := "http://adlnet.gov/expapi/verbs/answered"
  const STATEMENTS_PATH: string := "/statements?statementId="

  // ---------------------------------------------------------------------------
  // send_cmi5_statement

  /** The URL the statement is PUT to. */
  function StatementUrl(endpoint: string, statementId: string): (url: string)
    ensures |url| == |endpoint| + |STATEMENTS_PATH| + |statementId|
    ensures url[..|endpoint|] == endpoint && url[|url| - |statementId|..] == statementId
  {
    endpoint + STATEMENTS_PATH + statementId
  }

  /** What `send_cmi5_statement` put on the wire and what it returned. */
  datatype Delivery = Delivery(url: string, body: Statement, ok: bool)

  /**
   * `send_cmi5_statement`: the statement's id is overwritten with
   * `statementId`, it is PUT to the statement URL, and only the answer
   * 204 counts as delivered; another status or an exception is a failure.
   */
  function SendStatement(s: Cmi5Settings, statement: Statement, statementId: string, reply: Reply): (r: Delivery)
    ensures r.ok <==> reply == Status(204)
    ensures r.body.id == statementId && r.body.(id := statement.id) == statement
    ensures r.url == StatementUrl(s.endpoint, statementId)
  {
    Delivery(StatementUrl(s.endpoint, statementId), statement.(id := statementId), reply.Status? && reply.code == 204)
  }

  /** The guard against an empty endpoint URL can never be taken. */
  lemma EndpointNeverEmpty(endpoint: string, statementId: string)
    ensures StatementUrl(endpoint, statementId) != ""
  {
    assert |StatementUrl(endpoint, statementId)| >= |STATEMENTS_PATH|;
  }

  // ---------------------------------------------------------------------------
  // cmi5_send_answered

  /** The choices of a multiple-choice question: one per option, in order. */
  function Choices(opts: Dict<string>): (cs: seq<Choice>)
    ensures |cs| == |opts|
    ensures forall i :: 0 <= i < |opts| ==> cs[i] == Choice(opts[i].0, opts[i].1)
  {
    if opts == [] then []
    else [Choice(opts[0].0, opts[0].1)] + Choices(opts[1..])
  }

  /**
   * The activity definition: a multiple-choice question with a dict of
   * options is a "choice" interaction listing them, a text question
   * "fill-in", anything else "performance".
   */
  function QuestionDefinition(question: string, text: string, mode: string, opts: PartOpts): (d: Definition)
    ensures d.name == question && d.description == text && d.typeUri == INTERACTION_TYPE_URI
    ensures d.interactionType == "choice" <==> mode == "mc" && opts.DictOpts?
    ensures d.interactionType == "fill-in" <==> mode == "text"
    ensures d.interactionType == "performance" <==> mode != "text" && !(mode == "mc" && opts.DictOpts?)
    ensures d.choices.Some? <==> d.interactionType == "choice"
    ensures d.choices.Some? ==> (|d.choices.value| == |opts.choices| &&
      forall i :: 0 <= i < |opts.choices| ==> d.choices.value[i].id == opts.choices[i].0 && d.choices.value[i].description == opts.choices[i].1)
  {
    if mode == "mc" && opts.DictOpts? then
      Definition(question, text, "choice", INTERACTION_TYPE_URI, Some(Choices(opts.choices)))
    else if mode == "text" then
      Definition(question, text, "fill-in", INTERACTION_TYPE_URI, None)
    else
      Definition(question, text, "performance", INTERACTION_TYPE_URI, None)
  }

  /** The "answered" statement for one graded question. */
  function AnsweredStatement(s: Cmi5Settings, call: Answered, statementId: string, timestamp: string): Statement {
    Statement(statementId, s.actor, ANSWERED_VERB, "answered", "Activity", s.activityId,
              QuestionDefinition(call.question, call.text, call.mode, call.opts),
              call.success, call.answer, s.context, timestamp)
  }

  /**
   * `cmi5_send_answered`: nothing is sent (`None`) and the answer is true
   * when cmi5 is off; otherwise the statement is sent and its outcome is
   * the answer.
   */
  function SendAnswered(s: Cmi5Settings, call: Answered, statementId: string, timestamp: string, reply: Reply): (r: (Option<Delivery>, bool))
    ensures !s.enabled ==> r == (None, true)
    ensures s.enabled ==> r.0.Some? && (r.1 <==> reply == Status(204)) && r.1 == r.0.value.ok
  {
    if !s.enabled then (None, true)
    else
      var sent := SendStatement(s, AnsweredStatement(s, call, statementId, timestamp), statementId, reply);
      (Some(sent), sent.ok)
  }

  /**
   * What an enabled send puts on the wire: the answered verb, the activity
   * of the configured id described by the question, the success flag and
   * the user's answer, the configured context, under the URL of the
   * statement's own id.
   */
  lemma SentStatement(s: Cmi5Settings, call: Answered, statementId: string, timestamp: string, reply: Reply)
    requires s.enabled
    ensures var b := SendAnswered(s, call, statementId, timestamp, reply).0.value.body;
      b.verbId == ANSWERED_VERB && b.verbDisplay == "answered" &&
      b.objectType == "Activity" && b.activityId == s.activityId &&
      b.definition.name == call.question && b.definition.description == call.text &&
      b.success == call.success && b.response == call.answer &&
      b.context == s.context && b.id == statementId
    ensures SendAnswered(s, call, statementId, timestamp, reply).0.value.url == StatementUrl(s.endpoint, statementId)
  {
  }

  // ---------------------------------------------------------------------------
  // cmi5_get_defined_context

  /** The category activity appended for a category id. */
  function Activity(id: string): Json {
    JObj([("id", JStr(id)), ("objectType", JStr("Activity"))])
  }

  predicate AllObjects(items: seq<Json>) {
    forall i :: 0 <= i < |items| ==> items[i].JObj?
  }

  /** An id a Python set can hold: absent, or a scalar; a list or an object is unhashable. */
  predicate Hashable(id: Option<Json>) {
    id.None? || !(id.value.JArr? || id.value.JObj?)
  }

  /**
   * `{act.get("id") for act in existing}` runs without raising: every entry
   * is an object (`get` exists) and every id it yields is hashable.
   */
  predicate IdsHashable(items: seq<Json>) {
    AllObjects(items) && forall i :: 0 <= i < |items| ==> Hashable(Get(items[i].fields, "id"))
  }

  /** `{act.get("id") for act in existing}`, where it does not raise. */
  function Ids(items: seq<Json>): (ids: set<Option<Json>>)
    requires IdsHashable(items)
    ensures forall i :: 0 <= i < |items| ==> Get(items[i].fields, "id") in ids
    ensures forall x :: x in ids ==> exists i :: 0 <= i < |items| && Get(items[i].fields, "id") == x
  {
    set i | 0 <= i < |items| :: Get(items[i].fields, "id")
  }

  /** The activities the loop appends: one per input id not found among the existing ones, repeats included. */
  function Appended(categories: seq<string>, ids: set<Option<Json>>): seq<Json> {
    if categories == [] then []
    else
      var last := categories[|categories| - 1];
      Appended(categories[..|categories| - 1], ids) + (if Some(JStr(last)) in ids then [] else [Activity(last)])
  }

  /**
   * The loop over the requested categories, appending to the existing list.
   */
  method MergeCategories(existing: seq<Json>, categories: seq<string>) returns (merged: seq<Json>)
    requires IdsHashable(existing)
    ensures merged == existing + Appended(categories, Ids(existing))
  {
    var ids := Ids(existing);
    merged := existing;
    var i := 0;
    while i < |categories|
      invariant 0 <= i <= |categories|
      invariant merged == existing + Appended(categories[..i], ids)
    {
      var id := categories[i];
      assert categories[..i + 1][..i] == categories[..i];
      if Some(JStr(id)) !in ids {
        merged := merged + [Activity(id)];
      }
      i := i + 1;
    }
    assert categories[..i] == categories;
  }

  /**
   * The defined context, or `None` where Python raises: "contextActivities"
   * is not an object, or "category" is neither a list of objects with
   * hashable ids nor an empty string or object. An empty string or object is iterated without
   * error and kept as it is, but only while there is nothing to append to it.
   */
  function DefinedContext(context: Dict<Json>, categories: Option<seq<string>>): Option<Dict<Json>> {
    var acts := Get(context, "contextActivities").GetOr(JObj([]));
    if !acts.JObj? then None
    else
      var existing := Get(acts.fields, "category").GetOr(JArr([]));
      var cats := categories.GetOr([]);
      if existing.JArr? && IdsHashable(existing.items) then
        var merged := existing.items + Appended(cats, Ids(existing.items));
        Some(Put(context, "contextActivities", JObj(Put(acts.fields, "category", JArr(merged)))))
      else if cats == [] && (existing == JStr("") || existing == JObj([])) then
        Some(Put(context, "contextActivities", JObj(Put(acts.fields, "category", existing))))
      else None
  }

  /**
   * `cmi5_get_defined_context`: the stored context is copied, never changed,
   * and the copy gets the requested categories.
   */
  method GetDefinedContext(s: Cmi5Settings, categories: Option<seq<string>>) returns (r: Option<Dict<Json>>)
    ensures r == DefinedContext(s.context, categories)
  {
    var context := s.context;
    var cats := if categories.None? then [] else categories.value;
    var acts := JObj([]);
    if HasKey(context, "contextActivities") {
      acts := Get(context, "contextActivities").value;
    }
    assert acts == Get(context, "contextActivities").GetOr(JObj([]));
    if !acts.JObj? {
      return None;
    }
    var existing := JArr([]);
    if HasKey(acts.fields, "category") {
      existing := Get(acts.fields, "category").value;
    }
    assert existing == Get(acts.fields, "category").GetOr(JArr([])) && cats == categories.GetOr([]);
    if existing.JArr? && IdsHashable(existing.items) {
      var merged := MergeCategories(existing.items, cats);
      r := Some(Put(context, "contextActivities", JObj(Put(acts.fields, "category", JArr(merged)))));
    } else if cats == [] && (existing == JStr("") || existing == JObj([])) {
      r := Some(Put(context, "contextActivities", JObj(Put(acts.fields, "category", existing))));
    } else {
      r := None;
    }
  }

  /** Every requested id ends up among the ids of the category list. */
  lemma {:induction false} AppendedCovers(categories: seq<string>, ids: set<Option<Json>>, c: string)
    requires c in categories
    ensures Some(JStr(c)) in ids || Activity(c) in Appended(categories, ids)
  {
    var n := |categories|;
    if categories[n - 1] != c {
      assert c in categories[..n - 1] by {
        var j :| 0 <= j < n && categories[j] == c;
        assert categories[..n - 1][j] == c;
      }
      AppendedCovers(categories[..n - 1], ids, c);
    }
  }

  /**
   * An id repeated in the input is appended as often as it occurs, because
   * the set of existing ids is not updated; an id already present is never
   * appended.
   */
  lemma {:induction false} AppendedCount(categories: seq<string>, ids: set<Option<Json>>, c: string)
    ensures multiset(Appended(categories, ids))[Activity(c)] ==
      if Some(JStr(c)) in ids then 0 else multiset(categories)[c]
  {
    if categories != [] {
      var n := |categories|;
      var init, last := categories[..n - 1], categories[n - 1];
      AppendedCount(init, ids, c);
      assert categories == init + [last];
      assert Activity(last) == Activity(c) <==> last == c;
    }
  }

  /** The merged list keeps the existing entries first and lists every requested id. */
  lemma MergedCovers(existing: seq<Json>, categories: seq<string>)
    requires IdsHashable(existing)
    ensures var merged := existing + Appended(categories, Ids(existing));
      IdsHashable(merged) && merged[..|existing|] == existing &&
      forall c :: c in categories ==> Some(JStr(c)) in Ids(merged)
  {
    var ids := Ids(existing);
    var app := Appended(categories, ids);
    var merged := existing + app;
    AppendedObjects(categories, ids);
    forall c | c in categories
      ensures Some(JStr(c)) in Ids(merged)
    {
      AppendedCovers(categories, ids, c);
      if Some(JStr(c)) in ids {
        var i :| 0 <= i < |existing| && Get(existing[i].fields, "id") == Some(JStr(c));
        assert merged[i] == existing[i];
      } else {
        var j :| 0 <= j < |app| && app[j] == Activity(c);
        assert merged[|existing| + j] == Activity(c);
        assert Get(Activity(c).fields, "id") == Some(JStr(c));
      }
    }
  }

  /**
   * The defined context keeps every other key. When the existing categories
   * are a list, it keeps them first and in order and lists every requested
   * id; otherwise nothing was requested and the categories are kept as they
   * were.
   */
  lemma DefinedContextMerges(context: Dict<Json>, categories: seq<string>)
    requires DefinedContext(context, Some(categories)).Some?
    ensures var r := DefinedContext(context, Some(categories)).value;
      forall k :: k != "contextActivities" ==> Get(r, k) == Get(context, k)
    ensures var r := DefinedContext(context, Some(categories)).value;
      var acts := Get(r, "contextActivities");
      acts.Some? && acts.value.JObj? &&
      var cat := Get(acts.value.fields, "category");
      var prior := Get(Get(context, "contextActivities").GetOr(JObj([])).fields, "category").GetOr(JArr([]));
      cat.Some? &&
      if prior.JArr? then
        cat.value.JArr? && IdsHashable(cat.value.items) &&
        |prior.items| <= |cat.value.items| && cat.value.items[..|prior.items|] == prior.items &&
        forall c :: c in categories ==> Some(JStr(c)) in Ids(cat.value.items)
      else
        categories == [] && cat.value == prior
  {
    var acts := Get(context, "contextActivities").GetOr(JObj([]));
    var existing := Get(acts.fields, "category").GetOr(JArr([]));
    if existing.JArr? {
      var merged := existing.items + Appended(categories, Ids(existing.items));
      GetPutEvery(context, "contextActivities", JObj(Put(acts.fields, "category", JArr(merged))));
      GetPutEvery(acts.fields, "category", JArr(merged));
      MergedCovers(existing.items, categories);
    } else {
      GetPutEvery(context, "contextActivities", JObj(Put(acts.fields, "category", existing)));
      GetPutEvery(acts.fields, "category", existing);
    }
  }

  /** An existing category whose id is a list raises `TypeError` in the set of ids, whatever is requested. */
  lemma UnhashableIdRaises(categories: Option<seq<string>>)
    ensures DefinedContext([("contextActivities", JObj([("category", JArr([JObj([("id", JArr([]))])]))]))], categories).None?
  {
    var entry := JObj([("id", JArr([]))]);
    var items := [entry];
    assert Get(items[0].fields, "id") == Some(JArr([]));
    assert !Hashable(Get(items[0].fields, "id"));
  }

  lemma {:induction false} AppendedObjects(categories: seq<string>, ids: set<Option<Json>>)
    ensures IdsHashable(Appended(categories, ids))
  {
    if categories != [] {
      AppendedObjects(categories[..|categories| - 1], ids);
    }
  }
}
