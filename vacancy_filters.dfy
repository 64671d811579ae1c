/**
 * The search form: its filter state and the parameters a search sends,
 * either copied from a pasted search link or built from the form fields.
 */
module VacancyFilters {
  import opened Wrappers
  import opened ApiServices

  datatype SearchFilters = SearchFilters(
    url: string,
    text: string,
    area: string,
    salary: string,
    onlyWithSalary: bool,
    experience: string,
    employment: string,
    schedule: string)

  /** The form as first shown: every field empty, the salary checkbox clear. */
  const InitialFilters := SearchFilters("", "", "", "", false, "", "", "")

  /** The alert for a link that does not parse as a URL. */
  const InvalidUrlAlert := "Неверный URL"

  /** What pressing search does: call `onSearch` with the parameters, or alert. */
  datatype SearchAction = RunSearch(params: map<string, ParamValue>) | InvalidUrl(alert: string)

  /** Some pair of the list has the name `k`. */
  predicate Occurs(pairs: seq<(string, string)>, k: string) {
    exists i :: 0 <= i < |pairs| && pairs[i].0 == k
  }

  /** Pair `i` is the last one with its name. */
  predicate LastOccurrence(pairs: seq<(string, string)>, i: int) {
    0 <= i < |pairs| && forall j :: i < j < |pairs| ==> pairs[j].0 != pairs[i].0
  }

  /**
   * `Object.fromEntries(pairs)`: one key per distinct name, holding the value
   * of its last occurrence.
   */
  function FromEntries(pairs: seq<(string, string)>): (m: map<string, ParamValue>)
    ensures forall k :: k in m <==> Occurs(pairs, k)
    ensures forall i :: LastOccurrence(pairs, i) ==> pairs[i].0 in m && m[pairs[i].0] == Text(pairs[i].1)
  {
    if pairs == [] then map[]
    else
      var prev := FromEntries(pairs[..|pairs| - 1]);
      var m := prev[pairs[|pairs| - 1].0 := Text(pairs[|pairs| - 1].1)];
      EntriesKeys(pairs, pairs[..|pairs| - 1], prev, m);
      EntriesValues(pairs, pairs[..|pairs| - 1], prev, m);
      m
  }

  /** Adding the last pair to the map of the earlier ones gives a key for exactly the names that occur. */
  lemma EntriesKeys(pairs: seq<(string, string)>, init: seq<(string, string)>,
                    prev: map<string, ParamValue>, m: map<string, ParamValue>)
    requires pairs != [] && init == pairs[..|pairs| - 1]
    requires forall k :: k in prev <==> Occurs(init, k)
    requires m == prev[pairs[|pairs| - 1].0 := Text(pairs[|pairs| - 1].1)]
    ensures forall k :: k in m <==> Occurs(pairs, k)
  {
    var n := |pairs| - 1;
    forall k | Occurs(pairs, k) ensures k in m {
      var i :| 0 <= i < |pairs| && pairs[i].0 == k;
      if i < n {
        assert init[i].0 == k;
      }
    }
    forall k | k in m ensures Occurs(pairs, k) {
      if k == pairs[n].0 {
        assert pairs[n].0 == k;
      } else {
        var i :| 0 <= i < |init| && init[i].0 == k;
        assert pairs[i].0 == k;
      }
    }
  }

  /** Adding the last pair to the map of the earlier ones keeps, for every name, the value of its last occurrence. */
  lemma EntriesValues(pairs: seq<(string, string)>, init: seq<(string, string)>,
                      prev: map<string, ParamValue>, m: map<string, ParamValue>)
    requires pairs != [] && init == pairs[..|pairs| - 1]
    requires forall i :: LastOccurrence(init, i) ==> init[i].0 in prev && prev[init[i].0] == Text(init[i].1)
    requires m == prev[pairs[|pairs| - 1].0 := Text(pairs[|pairs| - 1].1)]
    ensures forall i :: LastOccurrence(pairs, i) ==> pairs[i].0 in m && m[pairs[i].0] == Text(pairs[i].1)
  {
    forall i | LastOccurrence(pairs, i) ensures pairs[i].0 in m && m[pairs[i].0] == Text(pairs[i].1) {
      if i < |pairs| - 1 {
        LastBeforeEnd(pairs, init, i);
      }
    }
  }

  /** A last occurrence before the final pair is a last occurrence among the earlier pairs, with another name than the final one. */
  lemma LastBeforeEnd(pairs: seq<(string, string)>, init: seq<(string, string)>, i: int)
    requires pairs != [] && init == pairs[..|pairs| - 1]
    requires LastOccurrence(pairs, i) && i < |pairs| - 1
    ensures LastOccurrence(init, i) && init[i] == pairs[i] && pairs[|pairs| - 1].0 != pairs[i].0
  {
    forall j | i < j < |init| ensures init[j].0 != init[i].0 {
      assert pairs[j].0 != pairs[i].0;
    }
  }

  /** A later pair overrides an earlier one with the same name. */
  lemma LaterDuplicateWins(pairs: seq<(string, string)>, name: string, first: string, second: string)
    ensures FromEntries(pairs + [(name, first), (name, second)])[name] == Text(second)
  {
    var all := pairs + [(name, first), (name, second)];
    assert all[|all| - 1] == (name, second);
    assert LastOccurrence(all, |all| - 1);
  }

  /** The text field `value` is sent under `key` exactly when it is non-empty, verbatim. */
  predicate Copied(m: map<string, ParamValue>, key: string, value: string) {
    (key in m <==> value != "") && (key in m ==> m[key] == Text(value))
  }

  /** The parameter names the form can produce. */
  const FormKeys := {"text", "area", "salary", "only_with_salary", "experience", "employment", "schedule"}

  /**
   * The parameters built from the form: each non-empty text field under its
   * name with its value verbatim, and `only_with_salary` set to true exactly
   * when the checkbox is ticked; no other key.
   */
  function FormParams(f: SearchFilters): (m: map<string, ParamValue>)
    ensures Copied(m, "text", f.text) && Copied(m, "area", f.area) && Copied(m, "salary", f.salary)
    ensures Copied(m, "experience", f.experience) && Copied(m, "employment", f.employment)
    ensures Copied(m, "schedule", f.schedule)
    ensures "only_with_salary" in m <==> f.onlyWithSalary
    ensures "only_with_salary" in m ==> m["only_with_salary"] == Flag(true)
    ensures m.Keys <= FormKeys
  {
    map k | k in FormKeys && FieldSet(f, k) :: FieldValue(f, k)
  }

  /** The form field sent under the name `k`, if it is filled in. */
  predicate FieldSet(f: SearchFilters, k: string) {
    if k == "only_with_salary" then f.onlyWithSalary else FieldText(f, k) != ""
  }

  function FieldText(f: SearchFilters, k: string): string {
    if k == "text" then f.text
    else if k == "area" then f.area
    else if k == "salary" then f.salary
    else if k == "experience" then f.experience
    else if k == "employment" then f.employment
    else if k == "schedule" then f.schedule
    else ""
  }

  function FieldValue(f: SearchFilters, k: string): ParamValue {
    if k == "only_with_salary" then Flag(true) else Text(FieldText(f, k))
  }

  /** `m` holds exactly the filled-in fields among the names in `done`. */
  ghost predicate Built(m: map<string, ParamValue>, f: SearchFilters, done: set<string>) {
    && (forall k :: k in m <==> k in done && FieldSet(f, k))
    && (forall k :: k in m ==> m[k] == FieldValue(f, k))
  }

  /** One conditional assignment of `handleSearch` extends what has been built by one name. */
  lemma PutField(m: map<string, ParamValue>, m': map<string, ParamValue>, f: SearchFilters, done: set<string>, key: string)
    requires Built(m, f, done)
    requires m' == if FieldSet(f, key) then m[key := FieldValue(f, key)] else m
    ensures Built(m', f, done + {key})
  {
  }

  /** Once every name of the form is done, the map is the form's parameters. */
  lemma BuiltAll(m: map<string, ParamValue>, f: SearchFilters, done: set<string>)
    requires Built(m, f, done) && FormKeys <= done
    ensures m == FormParams(f)
  {
  }

  /** Searching with the form as first shown sends no parameters at all. */
  lemma InitialSearchIsUnfiltered()
    ensures FormParams(InitialFilters) == map[]
  {
    var m := FormParams(InitialFilters);
    assert "text" !in m && "area" !in m && "salary" !in m && "only_with_salary" !in m;
    assert "experience" !in m && "employment" !in m && "schedule" !in m;
    assert m.Keys == {};
  }

  /**
   * `handleSearch()`. A non-empty link wins over the form: its query
   * parameters are sent as they are (`parse` is `new URL(s).searchParams`,
   * None when the link does not parse, which shows an alert instead).
   * Otherwise the parameters are collected field by field from the form.
   */
  method HandleSearch(filters: SearchFilters, parse: string -> Option<seq<(string, string)>>)
    returns (action: SearchAction)
    ensures filters.url != "" && parse(filters.url).None? ==> action == InvalidUrl(InvalidUrlAlert)
    ensures filters.url != "" && parse(filters.url).Some? ==> action == RunSearch(FromEntries(parse(filters.url).value))
    ensures filters.url == "" ==> action == RunSearch(FormParams(filters))
  {
    if filters.url != "" {
      var query := parse(filters.url);
      if query.None? {
        return InvalidUrl(InvalidUrlAlert);
      }
      return RunSearch(FromEntries(query.value));
    }
    var params: map<string, ParamValue> := map[];
    ghost var done: set<string> := {};
    ghost var prev := params;
    if filters.text != "" { params := params["text" := Text(filters.text)]; }
    PutField(prev, params, filters, done, "text");
    done, prev := done + {"text"}, params;
    if filters.area != "" { params := params["area" := Text(filters.area)]; }
    PutField(prev, params, filters, done, "area");
    done, prev := done + {"area"}, params;
    if filters.salary != "" { params := params["salary" := Text(filters.salary)]; }
    PutField(prev, params, filters, done, "salary");
    done, prev := done + {"salary"}, params;
    if filters.onlyWithSalary { params := params["only_with_salary" := Flag(true)]; }
    PutField(prev, params, filters, done, "only_with_salary");
    done, prev := done + {"only_with_salary"}, params;
    if filters.experience != "" { params := params["experience" := Text(filters.experience)]; }
    PutField(prev, params, filters, done, "experience");
    done, prev := done + {"experience"}, params;
    if filters.employment != "" { params := params["employment" := Text(filters.employment)]; }
    PutField(prev, params, filters, done, "employment");
    done, prev := done + {"employment"}, params;
    if filters.schedule != "" { params := params["schedule" := Text(filters.schedule)]; }
    PutField(prev, params, filters, done, "schedule");
    done, prev := done + {"schedule"}, params;
    BuiltAll(params, filters, done);
    action := RunSearch(params);
  }
}
