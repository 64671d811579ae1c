/**
 * The vacancy record the table works on (search summary plus the fields the
 * client fills in later), the partial updates applied to it, and the
 * by-identifier list update every handler goes through.
 */
module Vacancies {
  import opened Wrappers

  datatype Salary = Salary(from: Option<int>, to: Option<int>, currency: Option<string>)

  datatype Snippet = Snippet(requirement: Option<string>, responsibility: Option<string>)

  /**
   * One vacancy. `employer`, `area`, `schedule` and `employment` stand for the
   * `name` of the corresponding `{ name }` object.
   */
  datatype Vacancy = Vacancy(
    id: string,
    name: string,
    salary: Option<Salary>,
    employer: string,
    snippet: Option<Snippet>,
    area: string,
    publishedAt: Option<string>,
    schedule: Option<string>,
    employment: Option<string>,
    description: Option<string>,
    descriptionLoading: Option<bool>,
    aiScore: Option<int>,
    aiLetter: Option<string>,
    selected: Option<bool>)

  /**
   * A `Partial<Vacancy>` over the fields the client changes. For each field,
   * None means the key is absent from the update object and Some(x) means the
   * key is present with value x (x itself may be None: the key is present
   * with the value `undefined`, which a spread still copies).
   */
  datatype Patch = Patch(
    description: Option<Option<string>>,
    descriptionLoading: Option<Option<bool>>,
    schedule: Option<Option<string>>,
    employment: Option<Option<string>>,
    aiScore: Option<Option<int>>,
    aiLetter: Option<Option<string>>,
    selected: Option<Option<bool>>)

  const NoChange := Patch(None, None, None, None, None, None, None)

  function Over<T>(field: T, update: Option<T>): T {
    if update.Some? then update.value else field
  }

  /** The fields that come from search and that no handler ever updates. */
  predicate SameSummary(a: Vacancy, b: Vacancy) {
    && a.id == b.id && a.name == b.name && a.salary == b.salary
    && a.employer == b.employer && a.snippet == b.snippet && a.area == b.area
    && a.publishedAt == b.publishedAt
  }

  /** `{ ...v, ...u }`: the keys present in `u` win, every other field is kept. */
  function Merge(v: Vacancy, u: Patch): (r: Vacancy)
    ensures SameSummary(v, r)
    ensures u.description.Some? ==> r.description == u.description.value
    ensures u.description.None? ==> r.description == v.description
    ensures u.descriptionLoading.Some? ==> r.descriptionLoading == u.descriptionLoading.value
    ensures u.descriptionLoading.None? ==> r.descriptionLoading == v.descriptionLoading
    ensures u.schedule.Some? ==> r.schedule == u.schedule.value
    ensures u.schedule.None? ==> r.schedule == v.schedule
    ensures u.employment.Some? ==> r.employment == u.employment.value
    ensures u.employment.None? ==> r.employment == v.employment
    ensures u.aiScore.Some? ==> r.aiScore == u.aiScore.value
    ensures u.aiScore.None? ==> r.aiScore == v.aiScore
    ensures u.aiLetter.Some? ==> r.aiLetter == u.aiLetter.value
    ensures u.aiLetter.None? ==> r.aiLetter == v.aiLetter
    ensures u.selected.Some? ==> r.selected == u.selected.value
    ensures u.selected.None? ==> r.selected == v.selected
  {
    v.(description := Over(v.description, u.description),
       descriptionLoading := Over(v.descriptionLoading, u.descriptionLoading),
       schedule := Over(v.schedule, u.schedule),
       employment := Over(v.employment, u.employment),
       aiScore := Over(v.aiScore, u.aiScore),
       aiLetter := Over(v.aiLetter, u.aiLetter),
       selected := Over(v.selected, u.selected))
  }

  /** Spreading `u1` and then `u2`: the later object's keys win. */
  function Then(u1: Patch, u2: Patch): Patch {
    Patch(
      if u2.description.Some? then u2.description else u1.description,
      if u2.descriptionLoading.Some? then u2.descriptionLoading else u1.descriptionLoading,
      if u2.schedule.Some? then u2.schedule else u1.schedule,
      if u2.employment.Some? then u2.employment else u1.employment,
      if u2.aiScore.Some? then u2.aiScore else u1.aiScore,
      if u2.aiLetter.Some? then u2.aiLetter else u1.aiLetter,
      if u2.selected.Some? then u2.selected else u1.selected)
  }

  /** Merging twice is merging once with the combined update. */
  lemma MergeThen(v: Vacancy, u1: Patch, u2: Patch)
    ensures Merge(Merge(v, u1), u2) == Merge(v, Then(u1, u2))
  {
  }

  /** Applying the same update twice changes nothing more. */
  lemma MergeIdempotent(v: Vacancy, u: Patch)
    ensures Merge(Merge(v, u), u) == Merge(v, u)
  {
    MergeThen(v, u, u);
    assert Then(u, u) == u;
  }

  /** `prev.map(v => v.id === id ? { ...v, ...u } : v)`. */
  function UpdateById(vs: seq<Vacancy>, id: string, u: Patch): (r: seq<Vacancy>)
    ensures |r| == |vs|
    ensures forall i :: 0 <= i < |vs| ==> r[i] == if vs[i].id == id then Merge(vs[i], u) else vs[i]
  {
    if vs == [] then []
    else [if vs[0].id == id then Merge(vs[0], u) else vs[0]] + UpdateById(vs[1..], id, u)
  }

  function Ids(vs: seq<Vacancy>): (r: seq<string>)
    ensures |r| == |vs|
    ensures forall i :: 0 <= i < |vs| ==> r[i] == vs[i].id
  {
    if vs == [] then [] else [vs[0].id] + Ids(vs[1..])
  }

  /** An update keeps the list's identifiers, in order. */
  lemma {:induction false} UpdateKeepsIds(vs: seq<Vacancy>, id: string, u: Patch)
    ensures Ids(UpdateById(vs, id, u)) == Ids(vs)
  {
    if vs != [] {
      UpdateKeepsIds(vs[1..], id, u);
      assert UpdateById(vs, id, u)[1..] == UpdateById(vs[1..], id, u);
    }
  }

  /** An update for an identifier that is not in the list changes nothing. */
  lemma UpdateUnknownId(vs: seq<Vacancy>, id: string, u: Patch)
    requires id !in Ids(vs)
    ensures UpdateById(vs, id, u) == vs
  {
    var r := UpdateById(vs, id, u);
    forall i | 0 <= i < |vs| ensures r[i] == vs[i] {
      assert Ids(vs)[i] == vs[i].id;
    }
  }

  /** Two updates of the same vacancy combine like two spreads. */
  lemma {:induction false} UpdateThen(vs: seq<Vacancy>, id: string, u1: Patch, u2: Patch)
    ensures UpdateById(UpdateById(vs, id, u1), id, u2) == UpdateById(vs, id, Then(u1, u2))
  {
    if vs != [] {
      UpdateThen(vs[1..], id, u1, u2);
      MergeThen(vs[0], u1, u2);
      assert UpdateById(vs, id, u1)[1..] == UpdateById(vs[1..], id, u1);
      assert UpdateById(UpdateById(vs, id, u1), id, u2)[1..]
          == UpdateById(UpdateById(vs, id, u1)[1..], id, u2);
    }
  }

  /** Updates of different vacancies commute. */
  lemma UpdatesCommute(vs: seq<Vacancy>, id1: string, u1: Patch, id2: string, u2: Patch)
    requires id1 != id2
    ensures UpdateById(UpdateById(vs, id1, u1), id2, u2) == UpdateById(UpdateById(vs, id2, u2), id1, u1)
  {
  }

  /** A vacancy the send button counts: `v.selected && v.aiLetter`. */
  predicate Sendable(v: Vacancy) {
    IsTrue(v.selected) && Truthy(v.aiLetter)
  }

  /** `v.aiLetter!` for a vacancy in the batch: its non-empty letter. */
  function Letter(v: Vacancy): (s: string)
    requires Sendable(v)
    ensures s != "" && v.aiLetter == Some(s)
  {
    v.aiLetter.value
  }

  /** What the row checkbox shows: `v.selected !== false` (undefined shows as ticked). */
  predicate ShownSelected(v: Vacancy) {
    v.selected != Some(false)
  }

  /** `vs.filter(p)`: the vacancies satisfying `p`, in list order. */
  function Where(vs: seq<Vacancy>, p: Vacancy -> bool): (r: seq<Vacancy>)
    ensures |r| <= |vs|
    ensures forall i :: 0 <= i < |r| ==> p(r[i])
    ensures forall v :: v in r ==> v in vs
  {
    if vs == [] then []
    else if p(vs[0]) then [vs[0]] + Where(vs[1..], p)
    else Where(vs[1..], p)
  }

  /** A vacancy survives the filter exactly when it is in the list and satisfies `p`. */
  lemma {:induction false} WhereExactly(vs: seq<Vacancy>, p: Vacancy -> bool, v: Vacancy)
    ensures v in Where(vs, p) <==> v in vs && p(v)
  {
    if vs != [] {
      WhereExactly(vs[1..], p, v);
      assert vs == [vs[0]] + vs[1..];
    }
  }

  /** The filter is empty exactly when no vacancy satisfies `p`. */
  lemma {:induction false} WhereEmpty(vs: seq<Vacancy>, p: Vacancy -> bool)
    ensures Where(vs, p) == [] <==> forall i :: 0 <= i < |vs| ==> !p(vs[i])
  {
    if vs != [] {
      WhereEmpty(vs[1..], p);
      assert forall i :: 1 <= i < |vs| ==> vs[i] == vs[1..][i - 1];
    }
  }

  /** Filtering a list extended by one vacancy extends the filtered list by it exactly when it qualifies. */
  lemma {:induction false} WhereAppend(vs: seq<Vacancy>, p: Vacancy -> bool, v: Vacancy)
    ensures p(v) ==> Where(vs + [v], p) == Where(vs, p) + [v]
    ensures !p(v) ==> Where(vs + [v], p) == Where(vs, p)
  {
    if vs == [] {
      assert vs + [v] == [v];
      assert [v][1..] == [];
    } else {
      assert (vs + [v])[0] == vs[0];
      assert (vs + [v])[1..] == vs[1..] + [v];
      WhereAppend(vs[1..], p, v);
    }
  }

  /** `b` differs from `a` at most in its score. */
  predicate SameExceptScore(a: Vacancy, b: Vacancy) {
    a.(aiScore := None) == b.(aiScore := None)
  }

  /** `b` differs from `a` at most in its letter. */
  predicate SameExceptLetter(a: Vacancy, b: Vacancy) {
    a.(aiLetter := None) == b.(aiLetter := None)
  }

  /** The list `after` differs from `before` at most in scores. */
  predicate ScoresOnly(before: seq<Vacancy>, after: seq<Vacancy>) {
    |after| == |before| && forall j :: 0 <= j < |before| ==> SameExceptScore(before[j], after[j])
  }

  /** The list `after` differs from `before` at most in letters. */
  predicate LettersOnly(before: seq<Vacancy>, after: seq<Vacancy>) {
    |after| == |before| && forall j :: 0 <= j < |before| ==> SameExceptLetter(before[j], after[j])
  }

  lemma ScoresOnlyTrans(a: seq<Vacancy>, b: seq<Vacancy>, c: seq<Vacancy>)
    requires ScoresOnly(a, b) && ScoresOnly(b, c)
    ensures ScoresOnly(a, c)
  {
  }

  lemma LettersOnlyTrans(a: seq<Vacancy>, b: seq<Vacancy>, c: seq<Vacancy>)
    requires LettersOnly(a, b) && LettersOnly(b, c)
    ensures LettersOnly(a, c)
  {
  }
}
