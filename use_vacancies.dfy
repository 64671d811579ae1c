/**
 * The vacancy hook: the current result list and the `loading` label, with
 * the handlers that search, update a vacancy by identifier, analyze it,
 * generate its letter and send the batch of applications. Each backend reply
 * is an input; the requests go to the ApiService log.
 */
module UseVacancies {
  import opened Wrappers
  import opened Text
  import opened Vacancies
  import opened ApiServices

  /** The alert shown when a search fails without a `description`. */
  const SearchErrorFallback := "Ошибка поиска"

  /** `(data.items || []).map(v => ({ ...v, selected: true }))`. */
  function WithDefaultSelection(items: Option<seq<Vacancy>>): (r: seq<Vacancy>)
    ensures items.None? ==> r == []
    ensures items.Some? ==> |r| == |items.value|
    ensures items.Some? ==> forall i :: 0 <= i < |r| ==> r[i] == items.value[i].(selected := Some(true))
  {
    if items.None? then [] else SelectAll(items.value)
  }

  function SelectAll(vs: seq<Vacancy>): (r: seq<Vacancy>)
    ensures |r| == |vs|
    ensures forall i :: 0 <= i < |r| ==> r[i] == vs[i].(selected := Some(true))
  {
    if vs == [] then [] else [vs[0].(selected := Some(true))] + SelectAll(vs[1..])
  }

  /** A fresh result list keeps the backend's vacancies in order, and every one of them is ticked for sending. */
  lemma SearchResultsAllSelected(items: Option<seq<Vacancy>>)
    ensures Ids(WithDefaultSelection(items)) == (if items.None? then [] else Ids(items.value))
    ensures forall v :: v in WithDefaultSelection(items) ==> IsTrue(v.selected) && ShownSelected(v)
  {
    var r := WithDefaultSelection(items);
    if items.Some? {
      assert forall i :: 0 <= i < |r| ==> Ids(r)[i] == Ids(items.value)[i];
    }
  }

  /** `vacancies.filter(v => v.selected && v.aiLetter)`: the batch to send, in list order. */
  function Eligible(vs: seq<Vacancy>): (r: seq<Vacancy>)
    ensures |r| <= |vs|
    ensures forall i :: 0 <= i < |r| ==> Sendable(r[i])
    ensures forall v :: v in r <==> v in vs && Sendable(v)
    ensures r == [] <==> forall i :: 0 <= i < |vs| ==> !Sendable(vs[i])
  {
    var r := Where(vs, Sendable);
    WhereEmpty(vs, Sendable);
    forall v ensures v in r <==> v in vs && Sendable(v) {
      WhereExactly(vs, Sendable, v);
    }
    r
  }

  /** The batch ignores vacancies whose selection is undefined, though their checkbox shows ticked. */
  lemma UndefinedSelectionIsNotSent(v: Vacancy)
    requires v.selected.None?
    ensures ShownSelected(v) && Eligible([v]) == []
  {
    assert !Sendable(v);
  }

  /** The apply request for one vacancy of the batch, carrying its letter. */
  function ApplyRequest(base: string, token: string, v: Vacancy): Request
    requires Sendable(v)
  {
    RequestFor(base, token, Apply(v.id, Letter(v)))
  }

  /** The apply requests of a batch, one per vacancy. */
  function ApplyRequests(base: string, token: string, batch: seq<Vacancy>): (rs: seq<Request>)
    requires forall i :: 0 <= i < |batch| ==> Sendable(batch[i])
    ensures |rs| == |batch|
  {
    if batch == [] then []
    else [ApplyRequest(base, token, batch[0])] + ApplyRequests(base, token, batch[1..])
  }

  /** The k-th apply request of a batch is the one for the k-th vacancy, carrying its letter. */
  lemma {:induction false} ApplyRequestsInOrder(base: string, token: string, batch: seq<Vacancy>, k: int)
    requires forall i :: 0 <= i < |batch| ==> Sendable(batch[i])
    requires 0 <= k < |batch|
    ensures ApplyRequests(base, token, batch)[k] == RequestFor(base, token, Apply(batch[k].id, Letter(batch[k])))
  {
    if k > 0 {
      ApplyRequestsInOrder(base, token, batch[1..], k - 1);
    }
  }

  /** The number of calls among the first `n` that succeeded. */
  function CountOk(ok: nat -> bool, n: nat): (c: nat)
    ensures c <= n
  {
    if n == 0 then 0 else CountOk(ok, n - 1) + (if ok(n - 1) then 1 else 0)
  }

  /** When every call of the batch succeeds, the report says so; when all fail, it reports zero. */
  lemma {:induction false} CountOkExtremes(ok: nat -> bool, n: nat)
    ensures (forall k: nat :: k < n ==> ok(k)) ==> CountOk(ok, n) == n
    ensures (forall k: nat :: k < n ==> !ok(k)) ==> CountOk(ok, n) == 0
  {
    if n > 0 {
      CountOkExtremes(ok, n - 1);
    }
  }

  /** The summary shown after a batch: how many succeeded out of how many were attempted. */
  datatype Report = Report(successful: nat, attempted: nat)

  /** The text of the alert for a report: "Отправлено <successful> из <attempted> откликов!". */
  function ReportMessage(r: Report): string {
    "Отправлено " + NatToString(r.successful) + " из " + NatToString(r.attempted) + " откликов!"
  }

  /**
   * `{ aiScore: data.score }`: the key is always present; a reply without a
   * `score` writes `undefined` (None).
   */
  function ScorePatch(score: Option<int>): Patch {
    NoChange.(aiScore := Some(score))
  }

  /** `{ aiLetter: data.content }`, likewise with `undefined` for a reply without `content`. */
  function LetterPatch(letter: Option<string>): Patch {
    NoChange.(aiLetter := Some(letter))
  }

  /** A score update leaves every field but the score as it was, for every vacancy. */
  lemma {:induction false} ScoreTouchesOnlyScore(vs: seq<Vacancy>, id: string, score: Option<int>)
    ensures var r := UpdateById(vs, id, ScorePatch(score));
      forall i :: 0 <= i < |vs| ==>
        r[i].(aiScore := vs[i].aiScore) == vs[i] && (vs[i].id == id ==> r[i].aiScore == score)
  {
  }

  /**
   * A successful analysis whose reply carries no score erases the score of
   * that vacancy: it is unscored again, so a later pass over the list asks
   * for it once more.
   */
  lemma ScorelessReplyErasesScore(vs: seq<Vacancy>, id: string, i: int)
    requires 0 <= i < |vs| && vs[i].id == id
    ensures UpdateById(vs, id, ScorePatch(None))[i].aiScore.None?
  {
  }

  class VacanciesHook {
    var vacancies: seq<Vacancy>
    /** "" when idle, "search" or "send" while a request runs. */
    var loading: string

    constructor ()
      ensures vacancies == [] && loading == ""
    {
      vacancies := [];
      loading := "";
    }

    /**
     * `searchVacancies(params)`: on success the list becomes the returned
     * items, all selected; on failure the list is kept and an alert shows the
     * backend's description. The label is idle afterwards either way.
     */
    method SearchVacancies(api: ApiService, params: map<string, ParamValue>, reply: Reply<Option<seq<Vacancy>>>)
      returns (alert: Option<string>)
      modifies this, api
      ensures api.token == old(api.token)
      ensures api.sent == old(api.sent) + [RequestFor(api.baseUrl, api.token, Search(params))]
      ensures loading == ""
      ensures reply.Ok? ==> vacancies == WithDefaultSelection(reply.data) && alert.None?
      ensures reply.Rejected? ==> vacancies == old(vacancies) && alert == Some(OrElse(reply.detail, SearchErrorFallback))
    {
      loading := "search";
      api.Send(Search(params));
      alert := None;
      if reply.Ok? {
        vacancies := WithDefaultSelection(reply.data);
      } else {
        alert := Some(OrElse(reply.detail, SearchErrorFallback));
      }
      loading := "";
    }

    /** `updateVacancy(id, updates)`. */
    method UpdateVacancy(id: string, u: Patch)
      modifies this
      ensures vacancies == UpdateById(old(vacancies), id, u)
      ensures loading == old(loading)
    {
      vacancies := UpdateById(vacancies, id, u);
    }

    /**
     * `analyzeVacancy(id)`: `reply` is None when the request fails, else the
     * reply's `score` field (None when it has none). On success only that
     * vacancy's score changes, to the reply's; a failure changes nothing.
     */
    method AnalyzeVacancy(api: ApiService, id: string, reply: Option<Option<int>>)
      modifies this, api
      ensures api.token == old(api.token)
      ensures api.sent == old(api.sent) + [RequestFor(api.baseUrl, api.token, Analyze(id))]
      ensures vacancies == if reply.Some? then UpdateById(old(vacancies), id, ScorePatch(reply.value)) else old(vacancies)
      ensures ScoresOnly(old(vacancies), vacancies)
      ensures loading == old(loading)
    {
      api.Send(Analyze(id));
      if reply.Some? {
        UpdateVacancy(id, ScorePatch(reply.value));
        ScoreTouchesOnlyScore(old(vacancies), id, reply.value);
      }
    }

    /**
     * `generateLetter(id)`: `reply` is None when the request fails, else the
     * reply's `content` field (None when it has none). On success only that
     * vacancy's letter changes, to the reply's; a failure changes nothing.
     */
    method GenerateLetter(api: ApiService, id: string, reply: Option<Option<string>>)
      modifies this, api
      ensures api.token == old(api.token)
      ensures api.sent == old(api.sent) + [RequestFor(api.baseUrl, api.token, Endpoint.GenerateLetter(id))]
      ensures vacancies == if reply.Some? then UpdateById(old(vacancies), id, LetterPatch(reply.value)) else old(vacancies)
      ensures LettersOnly(old(vacancies), vacancies)
      ensures loading == old(loading)
    {
      api.Send(Endpoint.GenerateLetter(id));
      if reply.Some? {
        UpdateVacancy(id, LetterPatch(reply.value));
      }
    }

    /**
     * `sendApplications()`: one apply call per selected vacancy with a letter,
     * in list order; `ok(k)` is whether the k-th call succeeds, and a failure
     * never stops the later calls. An empty batch sends nothing, reports
     * nothing and leaves the label alone; otherwise the alert shows the report.
     */
    method SendApplications(api: ApiService, ok: nat -> bool) returns (report: Option<Report>, alert: Option<string>)
      modifies this, api
      ensures vacancies == old(vacancies) && api.token == old(api.token)
      ensures alert == if report.Some? then Some(ReportMessage(report.value)) else None
      ensures var batch := Eligible(old(vacancies));
        && (batch == [] ==> report.None? && loading == old(loading) && api.sent == old(api.sent))
        && (batch != [] ==>
              && api.sent == old(api.sent) + ApplyRequests(api.baseUrl, api.token, batch)
              && report == Some(Report(CountOk(ok, |batch|), |batch|))
              && loading == "")
    {
      var selected := Eligible(vacancies);
      if |selected| == 0 {
        return None, None;
      }
      loading := "send";
      var successful := ApplyEach(api, selected, ok);
      report := Some(Report(successful, |selected|));
      alert := Some(ReportMessage(report.value));
      loading := "";
    }
  }

  /**
   * The loop of `sendApplications()`: one apply call per vacancy of the
   * batch, in order, whatever the earlier calls returned; counts the
   * successes.
   */
  method ApplyEach(api: ApiService, batch: seq<Vacancy>, ok: nat -> bool) returns (successful: nat)
    requires forall j :: 0 <= j < |batch| ==> Sendable(batch[j])
    modifies api
    ensures api.token == old(api.token)
    ensures api.sent == old(api.sent) + ApplyRequests(api.baseUrl, api.token, batch)
    ensures successful == CountOk(ok, |batch|)
  {
    successful := 0;
    ghost var sent0 := api.sent;
    for i := 0 to |batch|
      invariant api.sent == sent0 + ApplyRequests(api.baseUrl, api.token, batch[..i])
      invariant api.token == old(api.token)
      invariant successful == CountOk(ok, i)
    {
      var v := batch[i];
      ghost var before := api.sent;
      api.Send(Apply(v.id, Letter(v)));
      ApplyLogStep(api.baseUrl, api.token, batch, i, sent0, before, api.sent);
      if ok(i) {
        successful := successful + 1;
      }
    }
    assert batch[..|batch|] == batch;
  }

  /** One iteration of the send loop extends the request log by the apply request of the visited vacancy. */
  lemma ApplyLogStep(base: string, token: string, batch: seq<Vacancy>, i: int,
                     sent0: seq<Request>, before: seq<Request>, after: seq<Request>)
    requires 0 <= i < |batch| && forall j :: 0 <= j < |batch| ==> Sendable(batch[j])
    requires before == sent0 + ApplyRequests(base, token, batch[..i])
    requires after == before + [RequestFor(base, token, Apply(batch[i].id, Letter(batch[i])))]
    ensures after == sent0 + ApplyRequests(base, token, batch[..i + 1])
  {
    var pre, v := batch[..i], batch[i];
    assert forall j :: 0 <= j < |pre| ==> pre[j] == batch[j];
    assert batch[..i + 1] == pre + [v];
    ApplyRequestsAppend(base, token, pre, v);
    AppendAssoc(sent0, ApplyRequests(base, token, pre), [ApplyRequest(base, token, v)]);
  }

  lemma {:induction false} ApplyRequestsAppend(base: string, token: string, batch: seq<Vacancy>, v: Vacancy)
    requires forall i :: 0 <= i < |batch| ==> Sendable(batch[i])
    requires Sendable(v)
    ensures ApplyRequests(base, token, batch + [v])
         == ApplyRequests(base, token, batch) + [ApplyRequest(base, token, v)]
  {
    if batch == [] {
      assert batch + [v] == [v];
    } else {
      assert (batch + [v])[0] == batch[0];
      assert (batch + [v])[1..] == batch[1..] + [v];
      ApplyRequestsAppend(base, token, batch[1..], v);
      AppendAssoc([ApplyRequest(base, token, batch[0])], ApplyRequests(base, token, batch[1..]), [ApplyRequest(base, token, v)]);
    }
  }
}
