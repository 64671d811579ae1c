/**
 * The vacancy table: the counters and the header checkbox it derives from
 * the list, the salary, date, description and score renderings, and the
 * handlers that walk a snapshot of the list (toggle-all, the sequential
 * description loader, analyze-all and generate-all). Every handler works on
 * the list held by the vacancy hook through its update callbacks.
 */
module VacanciesTable {
  import opened Wrappers
  import opened Text
  import opened Vacancies
  import opened ApiServices
  import opened UseVacancies

  // ---------------------------------------------------------------- counters

  /** The number on the send button: vacancies with a truthy selection and a non-empty letter. */
  function SelectedCount(vs: seq<Vacancy>): (n: nat)
    ensures n <= |vs|
    ensures n == 0 <==> forall i :: 0 <= i < |vs| ==> !Sendable(vs[i])
  {
    |Eligible(vs)|
  }

  /** The count grows by one exactly for each sendable vacancy: it counts them, one by one. */
  lemma SelectedCountAppend(vs: seq<Vacancy>, v: Vacancy)
    ensures SelectedCount([]) == 0
    ensures SelectedCount(vs + [v]) == SelectedCount(vs) + (if Sendable(v) then 1 else 0)
  {
    WhereAppend(vs, Sendable, v);
  }

  /** The header checkbox: a non-empty list where no vacancy is explicitly unselected. */
  predicate AllSelected(vs: seq<Vacancy>)
    ensures AllSelected(vs) <==> vs != [] && forall v :: v in vs ==> v.selected != Some(false)
  {
    |vs| > 0 && forall i :: 0 <= i < |vs| ==> ShownSelected(vs[i])
  }

  /**
   * A list whose vacancies carry no selection at all (undefined) shows the
   * header checkbox ticked while the send button counts none of them.
   */
  lemma UndefinedSelectionShowsButDoesNotCount(vs: seq<Vacancy>)
    requires |vs| > 0
    requires forall i :: 0 <= i < |vs| ==> vs[i].selected.None?
    ensures AllSelected(vs) && SelectedCount(vs) == 0
  {
  }

  /** The list with every `selected` set to `b` and every other field kept. */
  function SetSelected(vs: seq<Vacancy>, b: bool): (r: seq<Vacancy>)
    ensures |r| == |vs|
    ensures forall i :: 0 <= i < |vs| ==> r[i] == vs[i].(selected := Some(b))
  {
    if vs == [] then [] else [vs[0].(selected := Some(b))] + SetSelected(vs[1..], b)
  }

  /** On a non-empty list, toggle-all flips the header checkbox. */
  lemma ToggleFlipsHeader(vs: seq<Vacancy>)
    requires |vs| > 0
    ensures AllSelected(SetSelected(vs, !AllSelected(vs))) == !AllSelected(vs)
  {
    var r := SetSelected(vs, !AllSelected(vs));
    if AllSelected(vs) {
      assert !ShownSelected(r[0]);
    }
  }

  /** Toggling all on ticks every vacancy, so the send button then counts exactly those with a letter. */
  lemma ToggleOnCountsLetters(vs: seq<Vacancy>)
    ensures forall i :: 0 <= i < |vs| ==>
      (Sendable(SetSelected(vs, true)[i]) <==> Truthy(vs[i].aiLetter))
  {
  }

  function SelectPatch(b: bool): Patch {
    NoChange.(selected := Some(Some(b)))
  }

  // -------------------------------------------------------------- formatting

  /** `if (n) parts.push(...)` for a salary bound: zero and absent bounds are falsy. */
  predicate Nonzero(n: Option<int>) {
    n.Some? && n.value != 0
  }

  /** The parts of a salary line, in order: lower bound, upper bound, currency. */
  function SalaryParts(s: Salary, localized: int -> string): seq<string> {
    (if Nonzero(s.from) then ["от " + localized(s.from.value)] else [])
    + (if Nonzero(s.to) then ["до " + localized(s.to.value)] else [])
    + (if Truthy(s.currency) then [s.currency.value] else [])
  }

  /**
   * `formatSalary(salary)`: null for no salary, otherwise the truthy parts
   * joined by single spaces. `localized` is the locale rendering of a number.
   */
  function FormatSalary(salary: Option<Salary>, localized: int -> string): (r: Option<string>)
    ensures salary.None? <==> r.None?
  {
    if salary.None? then None else Some(Join(SalaryParts(salary.value, localized), " "))
  }

  /** A salary with both bounds and a currency reads "от X до Y CUR". */
  lemma FullSalary(from: int, to: int, cur: string, localized: int -> string)
    requires from != 0 && to != 0 && cur != ""
    ensures FormatSalary(Some(Salary(Some(from), Some(to), Some(cur))), localized)
         == Some("от " + localized(from) + " " + "до " + localized(to) + " " + cur)
  {
    var parts := SalaryParts(Salary(Some(from), Some(to), Some(cur)), localized);
    assert parts == ["от " + localized(from), "до " + localized(to), cur];
    assert parts[1..][1..] == [cur];
    assert Join(parts[1..][1..], " ") == cur;
    assert Join(parts[1..], " ") == "до " + localized(to) + " " + cur;
    assert Join(parts, " ") == "от " + localized(from) + " " + ("до " + localized(to) + " " + cur);
    assert "от " + localized(from) + " " + ("до " + localized(to) + " " + cur)
        == "от " + localized(from) + " " + "до " + localized(to) + " " + cur;
  }

  /** Only a lower bound: "от X"; a zero upper bound or an empty currency is left out. */
  lemma LowerBoundOnly(from: int, to: Option<int>, cur: Option<string>, localized: int -> string)
    requires from != 0 && !Nonzero(to) && !Truthy(cur)
    ensures FormatSalary(Some(Salary(Some(from), to, cur)), localized) == Some("от " + localized(from))
  {
    assert SalaryParts(Salary(Some(from), to, cur), localized) == ["от " + localized(from)];
  }

  /** A present salary with only falsy parts renders as the empty string, not as null. */
  lemma FalsySalaryIsEmpty(s: Salary, localized: int -> string)
    requires !Nonzero(s.from) && !Nonzero(s.to) && !Truthy(s.currency)
    ensures FormatSalary(Some(s), localized) == Some("")
  {
    assert SalaryParts(s, localized) == [];
  }

  /** `1000 * 60 * 60 * 24`. */
  const MsPerDay: int := 1000 * 60 * 60 * 24

  /** `Math.floor(elapsed / MsPerDay)`: whole days elapsed, rounded down (also for a date in the future). */
  function ElapsedDays(published: int, now: int): (d: int)
    ensures MsPerDay * d <= now - published < MsPerDay * (d + 1)
  {
    (now - published) / MsPerDay
  }

  /** How long ago, as the table words it; `NotANumber` is an unparsable date. */
  datatype Age = Today | Yesterday | DaysAgo(days: int) | WeeksAgo(weeks: int) | MonthsAgo(months: int) | NotANumber

  function AgeOf(d: int): (a: Age)
    ensures a == Today <==> d == 0
    ensures a == Yesterday <==> d == 1
    ensures a.DaysAgo? <==> d < 7 && d != 0 && d != 1
    ensures a.DaysAgo? ==> a.days == d
    ensures a.WeeksAgo? <==> 7 <= d < 30
    ensures a.WeeksAgo? ==> 1 <= a.weeks <= 4 && 7 * a.weeks <= d < 7 * a.weeks + 7
    ensures a.MonthsAgo? <==> 30 <= d
    ensures a.MonthsAgo? ==> 1 <= a.months && 30 * a.months <= d < 30 * a.months + 30
    ensures !a.NotANumber?
  {
    if d == 0 then Today
    else if d == 1 then Yesterday
    else if d < 7 then DaysAgo(d)
    else if d < 30 then WeeksAgo(d / 7)
    else MonthsAgo(d / 30)
  }

  function AgeText(a: Age): string {
    match a
    case Today => "Сегодня"
    case Yesterday => "Вчера"
    case DaysAgo(n) => IntToString(n) + " дней назад"
    case WeeksAgo(n) => IntToString(n) + " недель назад"
    case MonthsAgo(n) => IntToString(n) + " месяцев назад"
    case NotANumber => "NaN месяцев назад"
  }

  /**
   * `formatDate(dateStr)` at instant `now` (milliseconds). `parse` is
   * `new Date(s).getTime()`, None for an invalid date, whose NaN difference
   * falls through every comparison to the last case.
   */
  function FormatDate(dateStr: Option<string>, parse: string -> Option<int>, now: int): (r: string)
    ensures !Truthy(dateStr) ==> r == ""
    ensures Truthy(dateStr) && parse(dateStr.value).None? ==> r == "NaN месяцев назад"
    ensures Truthy(dateStr) && parse(dateStr.value).Some? ==>
      var d := ElapsedDays(parse(dateStr.value).value, now);
      && (d == 0 ==> r == "Сегодня")
      && (d == 1 ==> r == "Вчера")
      && (d < 7 && d != 0 && d != 1 ==> r == IntToString(d) + " дней назад")
      && (7 <= d < 30 ==> r == IntToString(d / 7) + " недель назад")
      && (30 <= d ==> r == IntToString(d / 30) + " месяцев назад")
  {
    if !Truthy(dateStr) then ""
    else
      var t := parse(dateStr.value);
      if t.None? then AgeText(NotANumber) else AgeText(AgeOf(ElapsedDays(t.value, now)))
  }

  /** Published less than a day ago: "Сегодня"; between one and two days ago: "Вчера". */
  lemma RecentDates(s: string, parse: string -> Option<int>, t: int, now: int)
    requires s != "" && parse(s) == Some(t)
    ensures 0 <= now - t < MsPerDay ==> FormatDate(Some(s), parse, now) == "Сегодня"
    ensures MsPerDay <= now - t < 2 * MsPerDay ==> FormatDate(Some(s), parse, now) == "Вчера"
  {
    var d := ElapsedDays(t, now);
    if 0 <= now - t < MsPerDay {
      assert d == 0;
    } else if MsPerDay <= now - t < 2 * MsPerDay {
      assert d == 1;
    }
  }

  /** A date in the future gets a negative day count: "-N дней назад". */
  lemma FutureDate(s: string, parse: string -> Option<int>, t: int, now: int)
    requires s != "" && parse(s) == Some(t) && now < t
    ensures var r := FormatDate(Some(s), parse, now);
      r == IntToString(ElapsedDays(t, now)) + " дней назад" && r[0] == '-'
  {
    assert ElapsedDays(t, now) < 0;
  }

  /** Two to six whole days ago: the day count itself, "N дней назад". */
  lemma DaysAgoDates(s: string, parse: string -> Option<int>, t: int, now: int)
    requires s != "" && parse(s) == Some(t)
    requires 2 * MsPerDay <= now - t < 7 * MsPerDay
    ensures var d := ElapsedDays(t, now);
      2 <= d <= 6 && FormatDate(Some(s), parse, now) == IntToString(d) + " дней назад"
  {
  }

  /**
   * Between a week and 30 days: the whole weeks, `floor(d / 7)`, from 1 to 4;
   * from 30 days on: the whole 30-day months, `floor(d / 30)`, at least 1.
   */
  lemma OlderDates(s: string, parse: string -> Option<int>, t: int, now: int)
    requires s != "" && parse(s) == Some(t)
    ensures var d := ElapsedDays(t, now);
      7 <= d < 30 ==>
        && 1 <= d / 7 <= 4 && 7 * (d / 7) <= d < 7 * (d / 7) + 7
        && FormatDate(Some(s), parse, now) == IntToString(d / 7) + " недель назад"
    ensures var d := ElapsedDays(t, now);
      30 <= d ==>
        && 1 <= d / 30 && 30 * (d / 30) <= d < 30 * (d / 30) + 30
        && FormatDate(Some(s), parse, now) == IntToString(d / 30) + " месяцев назад"
  {
  }

  /** The description paragraph: the full description, else the requirement, else the responsibility, else "". */
  function DescriptionText(v: Vacancy): (s: string)
    ensures Truthy(v.description) ==> s == v.description.value
    ensures s == "" <==>
      && !Truthy(v.description)
      && (v.snippet.Some? ==> !Truthy(v.snippet.value.requirement) && !Truthy(v.snippet.value.responsibility))
    ensures s != "" ==>
      || v.description == Some(s)
      || (v.snippet.Some? && (v.snippet.value.requirement == Some(s) || v.snippet.value.responsibility == Some(s)))
  {
    if Truthy(v.description) then v.description.value
    else if v.snippet.Some? && Truthy(v.snippet.value.requirement) then v.snippet.value.requirement.value
    else if v.snippet.Some? && Truthy(v.snippet.value.responsibility) then v.snippet.value.responsibility.value
    else ""
  }

  /** The description cell: None while the description loads (a placeholder is shown), else the text. */
  function DescriptionCell(v: Vacancy): (c: Option<string>)
    ensures c.None? <==> IsTrue(v.descriptionLoading)
    ensures c.Some? ==> c.value == DescriptionText(v)
  {
    if IsTrue(v.descriptionLoading) then None else Some(DescriptionText(v))
  }

  /** The score badge's class: none without a score, then high from 70, medium from 40, low below. */
  function ScoreClass(score: Option<int>): (c: Option<string>)
    ensures c.None? <==> score.None?
    ensures c == Some("score-high") <==> score.Some? && 70 <= score.value
    ensures c == Some("score-medium") <==> score.Some? && 40 <= score.value < 70
    ensures c == Some("score-low") <==> score.Some? && score.value < 40
  {
    if score.None? then None
    else if score.value >= 70 then Some("score-high")
    else if score.value >= 40 then Some("score-medium")
    else Some("score-low")
  }

  // ------------------------------------------------------ description loading

  /** What the detail lookup returns; each field may be missing. */
  datatype Details = Details(description: Option<string>, schedule: Option<string>, employment: Option<string>)

  /** A vacancy the loader visits: no description yet and not already loading. */
  predicate NeedsDescription(v: Vacancy) {
    !Truthy(v.description) && !IsTrue(v.descriptionLoading)
  }

  function LoadingPatch(b: bool): Patch {
    NoChange.(descriptionLoading := Some(Some(b)))
  }

  /**
   * The second update of a load, for the snapshot vacancy `v`: on success the
   * details' description (even when missing), their schedule and employment
   * when present and otherwise `v`'s own, and loading off; on failure only
   * loading off.
   */
  function Finish(v: Vacancy, reply: Option<Details>): (u: Patch)
    ensures u.descriptionLoading == Some(Some(false))
    ensures u.aiScore.None? && u.aiLetter.None? && u.selected.None?
    ensures reply.None? ==> u == LoadingPatch(false)
    ensures reply.Some? ==> u.description == Some(reply.value.description)
    ensures reply.Some? ==> u.schedule == Some(if Truthy(reply.value.schedule) then reply.value.schedule else v.schedule)
    ensures reply.Some? ==> u.employment == Some(if Truthy(reply.value.employment) then reply.value.employment else v.employment)
  {
    if reply.None? then LoadingPatch(false)
    else
      var d := reply.value;
      Patch(
        Some(d.description),
        Some(Some(false)),
        Some(if Truthy(d.schedule) then d.schedule else v.schedule),
        Some(if Truthy(d.employment) then d.employment else v.employment),
        None, None, None)
  }

  /**
   * The list after `loadDescription(v)`: nothing for a vacancy the loader
   * skips; otherwise loading is set on and then the finishing update is
   * applied. The net effect is the finishing update alone: the transient
   * loading flag leaves no trace.
   */
  function LoadStep(vs: seq<Vacancy>, v: Vacancy, reply: Option<Details>): (r: seq<Vacancy>)
    ensures |r| == |vs|
    ensures forall k :: 0 <= k < |vs| ==>
      r[k] == if NeedsDescription(v) && vs[k].id == v.id then Merge(vs[k], Finish(v, reply)) else vs[k]
  {
    if !NeedsDescription(v) then vs
    else
      UpdateThen(vs, v.id, LoadingPatch(true), Finish(v, reply));
      assert Then(LoadingPatch(true), Finish(v, reply)) == Finish(v, reply);
      UpdateById(UpdateById(vs, v.id, LoadingPatch(true)), v.id, Finish(v, reply))
  }

  /** Fields a load may change: description, its loading flag, schedule and employment. */
  predicate SameExceptDetails(a: Vacancy, b: Vacancy) {
    a.(description := b.description, descriptionLoading := b.descriptionLoading,
       schedule := b.schedule, employment := b.employment) == b
  }

  /** A successful load sets the description and clears loading; missing schedule or employment keep the vacancy's own. */
  lemma LoadSetsDescription(vs: seq<Vacancy>, v: Vacancy, d: Details, k: int)
    requires NeedsDescription(v) && 0 <= k < |vs| && vs[k].id == v.id
    ensures var r := LoadStep(vs, v, Some(d));
      && r[k].description == d.description
      && r[k].descriptionLoading == Some(false)
      && r[k].schedule == (if Truthy(d.schedule) then d.schedule else v.schedule)
      && r[k].employment == (if Truthy(d.employment) then d.employment else v.employment)
      && SameExceptDetails(vs[k], r[k])
  {
  }

  /** A failed load only clears the loading flag; a skipped vacancy causes no change at all. */
  lemma LoadFailureOnlyClearsLoading(vs: seq<Vacancy>, v: Vacancy)
    ensures !NeedsDescription(v) ==> LoadStep(vs, v, None) == vs
    ensures forall k :: 0 <= k < |vs| ==>
      LoadStep(vs, v, None)[k] == if NeedsDescription(v) && vs[k].id == v.id
                                   then vs[k].(descriptionLoading := Some(false)) else vs[k]
  {
  }

  /**
   * The detail call as the table makes it: the service declares no detail
   * lookup, so the call throws before any request leaves, and the catch
   * clears the loading flag. Every load fails.
   */
  method LoadDescriptionAsWritten(hook: VacanciesHook, v: Vacancy)
    modifies hook
    ensures hook.vacancies == LoadStep(old(hook.vacancies), v, None)
    ensures hook.loading == old(hook.loading)
  {
    if !NeedsDescription(v) {
      return;
    }
    hook.UpdateVacancy(v.id, LoadingPatch(true));
    hook.UpdateVacancy(v.id, LoadingPatch(false));
    UpdateThen(old(hook.vacancies), v.id, LoadingPatch(true), LoadingPatch(false));
    assert Then(LoadingPatch(true), Finish(v, None)) == Finish(v, None);
  }

  /** As written, no load ever changes a description: the loader can never show one. */
  lemma AsWrittenNeverLoads(vs: seq<Vacancy>, v: Vacancy)
    ensures forall k :: 0 <= k < |vs| ==> LoadStep(vs, v, None)[k].description == vs[k].description
    ensures NeedsDescription(v) && |vs| > 0 && vs[0].id == v.id && !Truthy(vs[0].description) ==>
      !Truthy(LoadStep(vs, v, None)[0].description)
  {
  }

  /** `loadDescription(v)` with the detail lookup the table expects (GET /api/vacancy/{id}). */
  method LoadDescription(hook: VacanciesHook, api: ApiService, v: Vacancy, reply: Option<Details>)
    modifies hook, api
    ensures hook.vacancies == LoadStep(old(hook.vacancies), v, reply)
    ensures hook.loading == old(hook.loading) && api.token == old(api.token)
    ensures api.sent == old(api.sent) + (if NeedsDescription(v) then [DetailRequest(api.baseUrl, api.token, v)] else [])
  {
    if !NeedsDescription(v) {
      return;
    }
    hook.UpdateVacancy(v.id, LoadingPatch(true));
    api.Send(Detail(v.id));
    hook.UpdateVacancy(v.id, Finish(v, reply));
  }

  // -------------------------------------------------------- snapshot loops

  function DetailRequest(base: string, token: string, v: Vacancy): Request {
    RequestFor(base, token, Detail(v.id))
  }

  function AnalyzeRequest(base: string, token: string, v: Vacancy): Request {
    RequestFor(base, token, Analyze(v.id))
  }

  function LetterRequest(base: string, token: string, v: Vacancy): Request {
    RequestFor(base, token, Endpoint.GenerateLetter(v.id))
  }

  /** The request one loop iteration sends for `v`. */
  datatype Loop = Describe | Score | Write

  function LoopRequest(loop: Loop, base: string, token: string, v: Vacancy): Request {
    match loop
    case Describe => DetailRequest(base, token, v)
    case Score => AnalyzeRequest(base, token, v)
    case Write => LetterRequest(base, token, v)
  }

  /** The requests of a loop over `vs`: one per vacancy, in order. */
  function LoopRequests(loop: Loop, base: string, token: string, vs: seq<Vacancy>): (rs: seq<Request>)
    ensures |rs| == |vs|
  {
    if vs == [] then [] else [LoopRequest(loop, base, token, vs[0])] + LoopRequests(loop, base, token, vs[1..])
  }

  lemma {:induction false} LoopRequestsAppend(loop: Loop, base: string, token: string, vs: seq<Vacancy>, v: Vacancy)
    ensures LoopRequests(loop, base, token, vs + [v]) == LoopRequests(loop, base, token, vs) + [LoopRequest(loop, base, token, v)]
  {
    if vs == [] {
      assert vs + [v] == [v];
    } else {
      assert (vs + [v])[0] == vs[0];
      assert (vs + [v])[1..] == vs[1..] + [v];
      LoopRequestsAppend(loop, base, token, vs[1..], v);
      AppendAssoc([LoopRequest(loop, base, token, vs[0])], LoopRequests(loop, base, token, vs[1..]), [LoopRequest(loop, base, token, v)]);
    }
  }

  /** One loop iteration extends the request log by the request for the visited vacancy when it qualifies. */
  lemma LogStep(loop: Loop, p: Vacancy -> bool, base: string, token: string, snapshot: seq<Vacancy>, i: int,
                sent0: seq<Request>, before: seq<Request>, after: seq<Request>)
    requires 0 <= i < |snapshot|
    requires before == sent0 + LoopRequests(loop, base, token, Where(snapshot[..i], p))
    requires after == if p(snapshot[i]) then before + [LoopRequest(loop, base, token, snapshot[i])] else before
    ensures after == sent0 + LoopRequests(loop, base, token, Where(snapshot[..i + 1], p))
  {
    WhereStep(snapshot, i, p);
    if p(snapshot[i]) {
      RequestsStep(loop, base, token, sent0, Where(snapshot[..i], p), snapshot[i]);
    }
  }

  /** The filter over one more vacancy of the snapshot grows by that vacancy exactly when it qualifies. */
  lemma WhereStep(snapshot: seq<Vacancy>, i: int, p: Vacancy -> bool)
    requires 0 <= i < |snapshot|
    ensures p(snapshot[i]) ==> Where(snapshot[..i + 1], p) == Where(snapshot[..i], p) + [snapshot[i]]
    ensures !p(snapshot[i]) ==> Where(snapshot[..i + 1], p) == Where(snapshot[..i], p)
  {
    assert snapshot[..i + 1] == snapshot[..i] + [snapshot[i]];
    WhereAppend(snapshot[..i], p, snapshot[i]);
  }

  /** Appending the request for `x` to a log that ends with the requests for `w` gives the log ending with those for `w + [x]`. */
  lemma RequestsStep(loop: Loop, base: string, token: string, sent0: seq<Request>, w: seq<Vacancy>, x: Vacancy)
    ensures sent0 + LoopRequests(loop, base, token, w) + [LoopRequest(loop, base, token, x)]
         == sent0 + LoopRequests(loop, base, token, w + [x])
  {
    LoopRequestsAppend(loop, base, token, w, x);
    AppendAssoc(sent0, LoopRequests(loop, base, token, w), [LoopRequest(loop, base, token, x)]);
  }

  /** `vacancy.aiScore === undefined`: a score of 0 counts as present. */
  predicate Unscored(v: Vacancy) {
    v.aiScore.None?
  }

  /** `!vacancy.aiLetter`: an empty letter counts as missing. */
  predicate Unlettered(v: Vacancy) {
    !Truthy(v.aiLetter)
  }

  /**
   * The list `cur` differs from `snapshot` at most in description, loading,
   * schedule and employment, and the first `i` vacancies of the snapshot that
   * needed a description are no longer loading.
   */
  predicate DetailsOnly(snapshot: seq<Vacancy>, cur: seq<Vacancy>, i: int) {
    && |cur| == |snapshot|
    && (forall j :: 0 <= j < |snapshot| ==> SameExceptDetails(snapshot[j], cur[j]))
    && (forall j :: 0 <= j < i && j < |snapshot| && NeedsDescription(snapshot[j]) ==> cur[j].descriptionLoading == Some(false))
  }

  /** Exactly the vacancies whose identifier is in `done` have had their selection set to `b`. */
  predicate ToggledFor(snapshot: seq<Vacancy>, cur: seq<Vacancy>, done: set<string>, b: bool) {
    && |cur| == |snapshot|
    && forall j :: 0 <= j < |snapshot| ==>
         cur[j] == if snapshot[j].id in done then snapshot[j].(selected := Some(b)) else snapshot[j]
  }

  lemma DetailsStep(snapshot: seq<Vacancy>, cur: seq<Vacancy>, i: int, reply: Option<Details>)
    requires 0 <= i < |snapshot| && DetailsOnly(snapshot, cur, i)
    ensures DetailsOnly(snapshot, LoadStep(cur, snapshot[i], reply), i + 1)
  {
  }

  /** Every identifier among the first `i` of the snapshot is in `done`. */
  predicate Covers(snapshot: seq<Vacancy>, done: set<string>, i: int) {
    forall j :: 0 <= j < i && j < |snapshot| ==> snapshot[j].id in done
  }

  lemma CoversStep(snapshot: seq<Vacancy>, done: set<string>, i: int)
    requires 0 <= i < |snapshot| && Covers(snapshot, done, i)
    ensures Covers(snapshot, done + {snapshot[i].id}, i + 1)
  {
  }

  lemma ToggleStep(snapshot: seq<Vacancy>, cur: seq<Vacancy>, done: set<string>, id: string, b: bool)
    requires ToggledFor(snapshot, cur, done, b)
    ensures ToggledFor(snapshot, UpdateById(cur, id, SelectPatch(b)), done + {id}, b)
  {
    var r := UpdateById(cur, id, SelectPatch(b));
    forall j | 0 <= j < |snapshot|
      ensures r[j] == if snapshot[j].id in done + {id} then snapshot[j].(selected := Some(b)) else snapshot[j]
    {
      if cur[j].id == id {
        assert Merge(cur[j], SelectPatch(b)) == cur[j].(selected := Some(b));
      }
    }
  }

  lemma ToggledAll(snapshot: seq<Vacancy>, cur: seq<Vacancy>, done: set<string>, b: bool)
    requires ToggledFor(snapshot, cur, done, b)
    requires Covers(snapshot, done, |snapshot|)
    ensures cur == SetSelected(snapshot, b)
  {
  }

  /**
   * `toggleAll()`: over the list as shown, one update per vacancy setting
   * `selected` to the negation of the header checkbox.
   */
  method ToggleAll(hook: VacanciesHook)
    modifies hook
    ensures hook.vacancies == SetSelected(old(hook.vacancies), !AllSelected(old(hook.vacancies)))
    ensures hook.loading == old(hook.loading)
  {
    var snapshot := hook.vacancies;
    var b := !AllSelected(snapshot);
    ghost var done: set<string> := {};
    for i := 0 to |snapshot|
      invariant hook.loading == old(hook.loading)
      invariant ToggledFor(snapshot, hook.vacancies, done, b)
      invariant Covers(snapshot, done, i)
    {
      var id := snapshot[i].id;
      ghost var prev := hook.vacancies;
      hook.UpdateVacancy(id, SelectPatch(b));
      ToggleStep(snapshot, prev, done, id, b);
      CoversStep(snapshot, done, i);
      done := done + {id};
    }
    ToggledAll(snapshot, hook.vacancies, done, b);
  }

  /**
   * The description loader over the list as shown: nothing for an empty
   * list; otherwise one load at a time, in list order, for exactly the
   * vacancies without a description that are not loading. `replies(k)` is
   * the reply to the k-th detail request. Afterwards every visited vacancy
   * has its loading flag cleared and no field outside the details changed.
   */
  method LoadDescriptions(hook: VacanciesHook, api: ApiService, replies: nat -> Option<Details>)
    modifies hook, api
    ensures hook.loading == old(hook.loading) && api.token == old(api.token)
    ensures api.sent == old(api.sent) + LoopRequests(Describe, api.baseUrl, api.token, Where(old(hook.vacancies), NeedsDescription))
    ensures |hook.vacancies| == |old(hook.vacancies)|
    ensures forall j :: 0 <= j < |hook.vacancies| ==> SameExceptDetails(old(hook.vacancies)[j], hook.vacancies[j])
    ensures forall j :: 0 <= j < |hook.vacancies| && NeedsDescription(old(hook.vacancies)[j]) ==>
      hook.vacancies[j].descriptionLoading == Some(false)
  {
    var snapshot := hook.vacancies;
    if |snapshot| == 0 {
      return;
    }
    ghost var sent0 := api.sent;
    var k: nat := 0;
    for i := 0 to |snapshot|
      invariant hook.loading == old(hook.loading) && api.token == old(api.token)
      invariant api.sent == sent0 + LoopRequests(Describe, api.baseUrl, api.token, Where(snapshot[..i], NeedsDescription))
      invariant DetailsOnly(snapshot, hook.vacancies, i)
    {
      var v := snapshot[i];
      ghost var before := api.sent;
      DetailsStep(snapshot, hook.vacancies, i, replies(k));
      if NeedsDescription(v) {
        LoadDescription(hook, api, v, replies(k));
        k := k + 1;
      }
      LogStep(Describe, NeedsDescription, api.baseUrl, api.token, snapshot, i, sent0, before, api.sent);
    }
    assert snapshot[..|snapshot|] == snapshot;
  }

  /**
   * `analyzeAll()`: over the list as shown, in order, one analysis exactly
   * for each vacancy without a score; `replies(k)` is the k-th reply. Only
   * scores change.
   */
  method AnalyzeAll(hook: VacanciesHook, api: ApiService, replies: nat -> Option<Option<int>>)
    modifies hook, api
    ensures hook.loading == old(hook.loading) && api.token == old(api.token)
    ensures api.sent == old(api.sent) + LoopRequests(Score, api.baseUrl, api.token, Where(old(hook.vacancies), Unscored))
    ensures ScoresOnly(old(hook.vacancies), hook.vacancies)
  {
    var snapshot := hook.vacancies;
    ghost var sent0 := api.sent;
    var k: nat := 0;
    for i := 0 to |snapshot|
      invariant hook.loading == old(hook.loading) && api.token == old(api.token)
      invariant api.sent == sent0 + LoopRequests(Score, api.baseUrl, api.token, Where(snapshot[..i], Unscored))
      invariant ScoresOnly(snapshot, hook.vacancies)
    {
      ghost var before, prev := api.sent, hook.vacancies;
      k := ScoreOne(hook, api, snapshot[i], replies, k);
      ScoresOnlyTrans(snapshot, prev, hook.vacancies);
      LogStep(Score, Unscored, api.baseUrl, api.token, snapshot, i, sent0, before, api.sent);
    }
    assert snapshot[..|snapshot|] == snapshot;
  }

  /** One iteration of `analyzeAll()`: an analysis of `v` exactly when it has no score, taking the next reply. */
  method ScoreOne(hook: VacanciesHook, api: ApiService, v: Vacancy, replies: nat -> Option<Option<int>>, k: nat) returns (next: nat)
    modifies hook, api
    ensures hook.loading == old(hook.loading) && api.token == old(api.token)
    ensures api.sent == if Unscored(v) then old(api.sent) + [LoopRequest(Score, api.baseUrl, api.token, v)] else old(api.sent)
    ensures hook.vacancies == if Unscored(v) && replies(k).Some?
      then UpdateById(old(hook.vacancies), v.id, ScorePatch(replies(k).value)) else old(hook.vacancies)
    ensures ScoresOnly(old(hook.vacancies), hook.vacancies)
    ensures next == if Unscored(v) then k + 1 else k
  {
    next := k;
    if Unscored(v) {
      hook.AnalyzeVacancy(api, v.id, replies(k));
      next := k + 1;
    }
  }

  /**
   * `generateAll()`: over the list as shown, in order, one letter request
   * exactly for each vacancy without a non-empty letter; `replies(k)` is
   * the k-th reply. Only letters change.
   */
  method GenerateAll(hook: VacanciesHook, api: ApiService, replies: nat -> Option<Option<string>>)
    modifies hook, api
    ensures hook.loading == old(hook.loading) && api.token == old(api.token)
    ensures api.sent == old(api.sent) + LoopRequests(Write, api.baseUrl, api.token, Where(old(hook.vacancies), Unlettered))
    ensures LettersOnly(old(hook.vacancies), hook.vacancies)
  {
    var snapshot := hook.vacancies;
    ghost var sent0 := api.sent;
    var k: nat := 0;
    for i := 0 to |snapshot|
      invariant hook.loading == old(hook.loading) && api.token == old(api.token)
      invariant api.sent == sent0 + LoopRequests(Write, api.baseUrl, api.token, Where(snapshot[..i], Unlettered))
      invariant LettersOnly(snapshot, hook.vacancies)
    {
      ghost var before, prev := api.sent, hook.vacancies;
      k := WriteOne(hook, api, snapshot[i], replies, k);
      LettersOnlyTrans(snapshot, prev, hook.vacancies);
      LogStep(Write, Unlettered, api.baseUrl, api.token, snapshot, i, sent0, before, api.sent);
    }
    assert snapshot[..|snapshot|] == snapshot;
  }

  /** One iteration of `generateAll()`: a letter request for `v` exactly when it has no letter, taking the next reply. */
  method WriteOne(hook: VacanciesHook, api: ApiService, v: Vacancy, replies: nat -> Option<Option<string>>, k: nat) returns (next: nat)
    modifies hook, api
    ensures hook.loading == old(hook.loading) && api.token == old(api.token)
    ensures api.sent == if Unlettered(v) then old(api.sent) + [LoopRequest(Write, api.baseUrl, api.token, v)] else old(api.sent)
    ensures hook.vacancies == if Unlettered(v) && replies(k).Some?
      then UpdateById(old(hook.vacancies), v.id, LetterPatch(replies(k).value)) else old(hook.vacancies)
    ensures LettersOnly(old(hook.vacancies), hook.vacancies)
    ensures next == if Unlettered(v) then k + 1 else k
  {
    next := k;
    if Unlettered(v) {
      hook.GenerateLetter(api, v.id, replies(k));
      next := k + 1;
    }
  }
}
