/**
 * The `Job` model: the SQL that `findAll` and `update` assemble, and the
 * effect of `create`, `get`, `update` and `remove` on the `jobs` table,
 * which stands in for the database behind `db.query`.
 */
module Jobs {
  import opened Wrappers
  import opened ExpressError
  import opened SqlText

  /** A row of `jobs`, as every query returns it: `{ id, title, salary, equity, company_handle }`. */
  datatype Job = Job(id: int, title: string, salary: int, equity: string, companyHandle: string)

  /** The argument of `create`: `{ title, salary, equity, company_handle }`. */
  datatype NewJob = NewJob(title: string, salary: int, equity: string, companyHandle: string)

  /** The `data` of a partial update; a field that is `None` is absent from the object. */
  datatype JobPatch = JobPatch(title: Option<string>, salary: Option<int>, equity: Option<string>)

  /** A value bound to a `$n` placeholder. */
  datatype Value = Text(text: string) | Number(number: int)

  /** The SQL text and the bind list handed to `db.query`. */
  datatype SqlStatement = SqlStatement(text: string, params: seq<Value>)

  const JobColumns := "id, title, salary, equity, company_handle"
  const SelectJobs := "SELECT " + JobColumns + " FROM jobs"
  const OrderByTitle := " ORDER BY title"

  /** The message of the `NotFoundError` that `get`, `update` and `remove` throw. */
  function NoJobMessage(id: int): string
  {
    "No job: " + IntToString(id)
  }

  // ------------------------------------------------------------------
  // findAll: the optional WHERE clause

  /**
   * The filter object of `findAll`. A key that is undefined is `None`;
   * `hasEquity` is false when it is undefined.
   */
  datatype JobFilter = JobFilter(title: Option<string>, minSalary: Option<int>, hasEquity: bool)

  /** `if (title)`: a string is truthy unless it is empty. */
  predicate TitleTruthy(f: JobFilter)
  {
    f.title.Some? && f.title.value != ""
  }

  /** A predicate of the WHERE clause; `param` is the number of its `$n` placeholder. */
  datatype Predicate = TitleILike(param: nat) | SalaryAtLeast(param: nat) | EquityPositive

  /** The text of a predicate before its placeholder (all of it for `equity > 0`). */
  function Test(p: Predicate): string
  {
    match p
    case TitleILike(_) => "title ILIKE "
    case SalaryAtLeast(_) => "salary >= "
    case EquityPositive => "equity > 0"
  }

  function Render(p: Predicate): string
  {
    if p.EquityPositive? then Test(p) else Test(p) + Placeholder(p.param)
  }

  function RenderAll(ps: seq<Predicate>): seq<string>
  {
    seq(|ps|, i requires 0 <= i < |ps| => Render(ps[i]))
  }

  function WhereClause(ps: seq<Predicate>): string
  {
    if |ps| > 0 then " WHERE " + Join(RenderAll(ps), " AND ") else ""
  }

  /** The whole query text of `findAll` for the predicates `ps`. */
  function SelectSql(ps: seq<Predicate>): string
  {
    SelectJobs + WhereClause(ps) + OrderByTitle
  }

  /** The predicates `findAll` emits for filter `f`, in the order title, salary, equity. */
  function FilterPredicates(f: JobFilter): seq<Predicate>
  {
    var titlePart := if TitleTruthy(f) then [TitleILike(1)] else [];
    var salaryPart := if f.minSalary.Some? then [SalaryAtLeast(|titlePart| + 1)] else [];
    titlePart + salaryPart + (if f.hasEquity then [EquityPositive] else [])
  }

  /** The values `findAll` binds for filter `f`. */
  function FilterValues(f: JobFilter): seq<Value>
  {
    (if TitleTruthy(f) then [Text("%" + f.title.value + "%")] else [])
    + (if f.minSalary.Some? then [Number(f.minSalary.value)] else [])
  }

  /** The query text and bind list that `findAll` passes to `db.query`. */
  method FindAllQuery(filter: JobFilter) returns (query: string, queryValues: seq<Value>)
    ensures query == SelectSql(FilterPredicates(filter))
    ensures queryValues == FilterValues(filter)
  {
    query := SelectJobs;
    var whereExpressions: seq<string> := [];
    queryValues := [];
    ghost var predicates: seq<Predicate> := [];

    if TitleTruthy(filter) {
      queryValues := queryValues + [Text("%" + filter.title.value + "%")];
      whereExpressions := whereExpressions + [Render(TitleILike(|queryValues|))];
      predicates := predicates + [TitleILike(|queryValues|)];
    }

    if filter.minSalary.Some? {
      queryValues := queryValues + [Number(filter.minSalary.value)];
      whereExpressions := whereExpressions + [Render(SalaryAtLeast(|queryValues|))];
      predicates := predicates + [SalaryAtLeast(|queryValues|)];
    }

    if filter.hasEquity {
      whereExpressions := whereExpressions + [Render(EquityPositive)];
      predicates := predicates + [EquityPositive];
    }

    assert predicates == FilterPredicates(filter);
    assert whereExpressions == RenderAll(predicates);
    if |whereExpressions| > 0 {
      query := query + (" WHERE " + Join(whereExpressions, " AND "));
    }

    query := query + OrderByTitle;
  }

  /** The value a bound predicate needs from the filter. */
  function BoundValue(p: Predicate, f: JobFilter): Option<Value>
  {
    match p
    case TitleILike(_) => if f.title.Some? then Some(Text("%" + f.title.value + "%")) else None
    case SalaryAtLeast(_) => if f.minSalary.Some? then Some(Number(f.minSalary.value)) else None
    case EquityPositive => None
  }

  /** Position of a predicate kind in the fixed order title, salary, equity. */
  function Rank(p: Predicate): nat
  {
    match p
    case TitleILike(_) => 0
    case SalaryAtLeast(_) => 1
    case EquityPositive => 2
  }

  ghost predicate HasTitlePredicate(ps: seq<Predicate>)
  {
    exists k :: 0 <= k < |ps| && ps[k].TitleILike?
  }

  ghost predicate HasSalaryPredicate(ps: seq<Predicate>)
  {
    exists k :: 0 <= k < |ps| && ps[k].SalaryAtLeast?
  }

  /** The placeholder numbers of the value-bearing predicates, in emission order. */
  function BoundParams(ps: seq<Predicate>): seq<nat>
  {
    if ps == [] then []
    else (if ps[0].EquityPositive? then [] else [ps[0].param]) + BoundParams(ps[1..])
  }

  /**
   * Every placeholder of a value-bearing predicate names the 1-based
   * position of the value that predicate needs, and the placeholders, in
   * emission order, are exactly $1, ..., $|values|: each bound value is
   * named by exactly one predicate.
   */
  lemma PlaceholderAlignment(f: JobFilter)
    ensures var ps, vs := FilterPredicates(f), FilterValues(f);
      forall k :: 0 <= k < |ps| && !ps[k].EquityPositive? ==>
        1 <= ps[k].param <= |vs| && BoundValue(ps[k], f) == Some(vs[ps[k].param - 1])
    ensures var bs, vs := BoundParams(FilterPredicates(f)), FilterValues(f);
      |bs| == |vs| && forall j :: 0 <= j < |bs| ==> bs[j] == j + 1
  {
    var ps, vs := FilterPredicates(f), FilterValues(f);
    var tail := if f.hasEquity then [EquityPositive] else [];
    assert BoundParams(tail) == [];
    if TitleTruthy(f) && f.minSalary.Some? {
      assert ps == [TitleILike(1), SalaryAtLeast(2)] + tail;
      assert ps[1..] == [SalaryAtLeast(2)] + tail;
      assert ps[2..] == tail;
    } else if TitleTruthy(f) {
      assert ps == [TitleILike(1)] + tail;
      assert ps[1..] == tail;
    } else if f.minSalary.Some? {
      assert ps == [SalaryAtLeast(1)] + tail;
      assert ps[1..] == tail;
    } else {
      assert ps == tail;
    }
  }

  /**
   * The same alignment read off the rendered text: in each value-bearing
   * predicate, the placeholder after its test names the position of the
   * value the predicate needs.
   */
  lemma RenderedPlaceholderAlignment(f: JobFilter)
    ensures var ps, vs := FilterPredicates(f), FilterValues(f);
      forall k :: 0 <= k < |ps| && !ps[k].EquityPositive? ==>
        var n := PlaceholderIndex(Render(ps[k])[|Test(ps[k])|..]);
        1 <= n <= |vs| && BoundValue(ps[k], f) == Some(vs[n - 1])
  {
    var ps := FilterPredicates(f);
    PlaceholderAlignment(f);
    forall k | 0 <= k < |ps| && !ps[k].EquityPositive?
      ensures PlaceholderIndex(Render(ps[k])[|Test(ps[k])|..]) == ps[k].param
    {
      assert Render(ps[k])[|Test(ps[k])|..] == Placeholder(ps[k].param);
      PlaceholderIndexOfPlaceholder(ps[k].param);
    }
  }

  /**
   * There is one predicate per bound value plus the literal `equity > 0`,
   * which binds nothing; the predicates keep the order title, salary, equity.
   */
  lemma PredicateShape(f: JobFilter)
    ensures var ps, vs := FilterPredicates(f), FilterValues(f);
      |ps| == |vs| + (if f.hasEquity then 1 else 0)
    ensures f.hasEquity <==> EquityPositive in FilterPredicates(f)
    ensures var ps := FilterPredicates(f);
      forall i, k :: 0 <= i < k < |ps| ==> Rank(ps[i]) < Rank(ps[k])
  {
  }

  /**
   * A title predicate is emitted exactly when `title` is truthy (so `""`
   * emits none), a salary predicate exactly when `minSalary` is defined
   * (so `0` emits one).
   */
  lemma FilterInclusion(f: JobFilter)
    ensures HasTitlePredicate(FilterPredicates(f)) <==> TitleTruthy(f)
    ensures HasSalaryPredicate(FilterPredicates(f)) <==> f.minSalary.Some?
  {
    var ps := FilterPredicates(f);
    if TitleTruthy(f) {
      assert ps[0].TitleILike?;
    }
    if f.minSalary.Some? {
      assert ps[if TitleTruthy(f) then 1 else 0].SalaryAtLeast?;
    }
  }

  /**
   * The WHERE keyword is emitted exactly when there is a predicate, and it
   * is then followed by the first predicate's (non-empty) text.
   */
  lemma NoEmptyWhere(ps: seq<Predicate>)
    ensures WhereClause(ps) == "" <==> ps == []
    ensures ps != [] ==> Render(ps[0]) != "" && " WHERE " + Render(ps[0]) <= WhereClause(ps)
  {
  }

  /**
   * With no recognised filter (`findAll()` with its default `{}` among them)
   * the query is the base SELECT ordered by title, and nothing is bound.
   */
  lemma NoFilterQuery(f: JobFilter)
    requires !TitleTruthy(f) && f.minSalary.None? && !f.hasEquity
    ensures SelectSql(FilterPredicates(f)) == SelectJobs + OrderByTitle
    ensures FilterValues(f) == []
  {
  }

  // ------------------------------------------------------------------
  // update: the statement built around sqlForPartialUpdate's result

  /** What `sqlForPartialUpdate` returns: the SET list and its values. */
  datatype PartialUpdateSql = PartialUpdateSql(setCols: string, values: seq<Value>)

  function UpdateSql(setCols: string, idParam: nat): string
  {
    "UPDATE jobs SET " + setCols + " WHERE id = " + Placeholder(idParam) + " RETURNING " + JobColumns
  }

  /**
   * The statement `update` sends: the id placeholder names the last bound
   * position, which holds the id, and the SET values keep positions 1..|values|.
   */
  function UpdateQuery(id: int, setCols: string, values: seq<Value>): (q: SqlStatement)
    ensures |q.params| == |values| + 1
    ensures q.params[..|values|] == values
    ensures q.params[|q.params| - 1] == Number(id)
    ensures q.text == UpdateSql(setCols, |q.params|)
  {
    var idVarIdx := |values| + 1;
    SqlStatement(UpdateSql(setCols, idVarIdx), values + [Number(id)])
  }

  /** The row after a partial update: each field present in `data` replaces the row's. */
  function ApplyPatch(job: Job, data: JobPatch): (r: Job)
    ensures r.id == job.id && r.companyHandle == job.companyHandle
    ensures data.title.Some? ==> r.title == data.title.value
    ensures data.title.None? ==> r.title == job.title
    ensures data.salary.Some? ==> r.salary == data.salary.value
    ensures data.salary.None? ==> r.salary == job.salary
    ensures data.equity.Some? ==> r.equity == data.equity.value
    ensures data.equity.None? ==> r.equity == job.equity
  {
    var title := if data.title.Some? then data.title.value else job.title;
    var salary := if data.salary.Some? then data.salary.value else job.salary;
    var equity := if data.equity.Some? then data.equity.value else job.equity;
    job.(title := title, salary := salary, equity := equity)
  }

  // ------------------------------------------------------------------
  // The table and the operations on it

  class JobTable {
    /** The rows of `jobs`, by id. */
    var jobs: map<int, Job>
    /** The next value of the `id` column's serial sequence. */
    var nextId: int

    /** Every row is stored under its own id, and ids are positive and below the sequence's next value. */
    ghost predicate Valid()
      reads this
    {
      0 < nextId && forall id :: id in jobs ==> jobs[id].id == id && 0 < id < nextId
    }

    constructor ()
      ensures Valid() && jobs == map[] && nextId == 1
    {
      jobs := map[];
      nextId := 1;
    }

    /** `create`: inserts a row under a fresh id and returns it. */
    method Create(data: NewJob) returns (job: Job)
      requires Valid()
      modifies this
      ensures Valid()
      ensures job.id !in old(jobs)
      ensures job.title == data.title && job.salary == data.salary
      ensures job.equity == data.equity && job.companyHandle == data.companyHandle
      ensures jobs == old(jobs)[job.id := job]
    {
      job := Job(nextId, data.title, data.salary, data.equity, data.companyHandle);
      jobs := jobs[nextId := job];
      nextId := nextId + 1;
    }

    /** `get`: the row with this id, or `NotFoundError` when there is none. */
    method Get(id: int) returns (r: Result<Job, ExpressError>)
      ensures r.Success? <==> id in jobs
      ensures r.Success? ==> r.value == jobs[id]
      ensures r.Failure? ==> r.error == NotFoundError(NoJobMessage(id))
    {
      var row: Option<Job> := if id in jobs then Some(jobs[id]) else None;
      if row.None? {
        r := Failure(NotFoundError(NoJobMessage(id)));
      } else {
        r := Success(row.value);
      }
    }

    /**
     * `update`: `sqlForPartialUpdate(data, {})` supplies the SET list and its
     * values (its error propagates before anything is sent); `sent` is the
     * statement passed to `db.query`. The row with this id gets the fields of
     * `data` and is returned; with no such row nothing changes and
     * `NotFoundError` is thrown.
     */
    method Update(id: int, data: JobPatch,
                  sqlForPartialUpdate: (JobPatch, map<string, string>) -> Result<PartialUpdateSql, ExpressError>)
      returns (sent: Option<SqlStatement>, r: Result<Job, ExpressError>)
      requires Valid()
      modifies this
      ensures Valid() && nextId == old(nextId)
      ensures sqlForPartialUpdate(data, map[]).Failure? ==>
        sent == None && r == Failure(sqlForPartialUpdate(data, map[]).error) && jobs == old(jobs)
      ensures sqlForPartialUpdate(data, map[]).Success? ==>
        var p := sqlForPartialUpdate(data, map[]).value;
        sent == Some(UpdateQuery(id, p.setCols, p.values))
      ensures sent.Some? && id in old(jobs) ==>
        r == Success(ApplyPatch(old(jobs)[id], data)) && jobs == old(jobs)[id := r.value]
      ensures sent.Some? && id !in old(jobs) ==>
        r == Failure(NotFoundError(NoJobMessage(id))) && jobs == old(jobs)
    {
      var partial := sqlForPartialUpdate(data, map[]);
      if partial.Failure? {
        sent, r := None, Failure(partial.error);
        return;
      }
      sent := Some(UpdateQuery(id, partial.value.setCols, partial.value.values));
      // The table's answer to the UPDATE ... RETURNING statement: the changed row, if any.
      var row: Option<Job> := if id in jobs then Some(ApplyPatch(jobs[id], data)) else None;
      if row.None? {
        r := Failure(NotFoundError(NoJobMessage(id)));
      } else {
        jobs := jobs[id := row.value];
        r := Success(row.value);
      }
    }

    /** `remove`: deletes the row with this id, or throws `NotFoundError` and changes nothing. */
    method Remove(id: int) returns (r: Outcome<ExpressError>)
      requires Valid()
      modifies this
      ensures Valid() && nextId == old(nextId)
      ensures id in old(jobs) ==> r == Pass && jobs == old(jobs) - {id}
      ensures id !in old(jobs) ==> r == Fail(NotFoundError(NoJobMessage(id))) && jobs == old(jobs)
    {
      var deleted := id in jobs;
      jobs := jobs - {id};
      if !deleted {
        r := Fail(NotFoundError(NoJobMessage(id)));
      } else {
        r := Pass;
      }
    }
  }

  /** `create` then `get` of the new id returns a record equal to the created one. */
  method CreateThenGet(table: JobTable, data: NewJob) returns (created: Job, fetched: Result<Job, ExpressError>)
    requires table.Valid()
    modifies table
    ensures table.Valid()
    ensures fetched == Success(created)
    ensures created == Job(created.id, data.title, data.salary, data.equity, data.companyHandle)
  {
    created := table.Create(data);
    fetched := table.Get(created.id);
  }

  /**
   * The not-found cases of the tests: with the fixture's one job stored,
   * `get`, `update` and `remove` of id 0 each throw `NotFoundError`.
   */
  method NotFoundForIdZero(sqlForPartialUpdate: (JobPatch, map<string, string>) -> Result<PartialUpdateSql, ExpressError>)
    returns (got: Result<Job, ExpressError>, updated: Result<Job, ExpressError>, removed: Outcome<ExpressError>)
    ensures got == Failure(NotFoundError(NoJobMessage(0)))
    ensures sqlForPartialUpdate(JobPatch(Some("Updated Test Job"), Some(130000), Some("0.2")), map[]).Success? ==>
      updated == Failure(NotFoundError(NoJobMessage(0)))
    ensures removed == Fail(NotFoundError(NoJobMessage(0)))
  {
    var table := new JobTable();
    var fixture := table.Create(NewJob("Test Job", 100000, "0.1", "testcompany"));
    got := table.Get(0);
    var sent;
    sent, updated := table.Update(0, JobPatch(Some("Updated Test Job"), Some(130000), Some("0.2")), sqlForPartialUpdate);
    removed := table.Remove(0);
  }
}
