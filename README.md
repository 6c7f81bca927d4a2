# Job model and the correct-user-or-admin gate

This project models two pieces of the jobly API in Dafny:

- the `Job` data-access class (`models/job.js`). It covers the SQL that
  `findAll` assembles from an optional filter (an optional `WHERE`
  clause, `$n` placeholders and the parallel bind list, and a fixed
  `ORDER BY title`). It covers the statement `update` builds around the
  result of `sqlForPartialUpdate`, where the id placeholder is
  `$<values.length + 1>` and the bind list is `[...values, id]`. It also
  covers the effect of `create`, `get`, `update` and `remove` on the
  `jobs` table. The table is a `map<int, Job>` field of the class
  `Jobs.JobTable`, together with the serial id sequence (`nextId`). A
  missing row becomes `NotFoundError("No job: <id>")`.
- the `ensureCorrectUserOrAdmin` middleware
  (`middleware/ensureCorrectUserOrAdmin.js`). It passes a request whose
  user is an administrator or owns the target username. In every other
  case, including no user at all, it fails with `UnauthorizedError`. In
  both cases it calls `next` exactly once.

Files:

- `wrappers.dfy`: `Option`, `Result` and `Outcome`. A `Result` or
  `Outcome` failure stands for a thrown error.
- `express_error.dfy`: the error classes used.
- `sql_text.dfy`: decimal numerals and their parser, `Array.join`, and
  `$n` placeholders.
- `job.dfy`: the `Jobs` module.
- `ensure_correct_user_or_admin.dfy`: the middleware.

Interfaces the model does not execute:

- `db.query` is replaced by the table map. Each operation's effect on the
  map is what its SQL statement would do to the `jobs` table.
- `sqlForPartialUpdate` is a function-typed parameter of `Update`. It is
  called as `sqlForPartialUpdate(data, {})`, exactly as the source calls
  it.
- The `next` callback of the middleware is the function's result. A value
  of `NextCall` is the one argument list that `next` receives. Because the
  result type has no error case, the error can never escape the function.

Notes on what the code does:

- The doc comment of `create` and one test say that creating a duplicate
  job throws `BadRequestError`. The body of `create` has no such check. The
  model follows the code: `Create` always inserts a row under a fresh id.
- SQL text is modelled with the whitespace of the template literals
  collapsed to single spaces. Placeholders, keywords, column lists and
  clause order are kept.

## Model

| member | source | states |
|---|---|---|
| `Jobs.FindAllQuery` | models/job.js:36-59 | The query text is the base SELECT plus the WHERE clause of `FilterPredicates(filter)` plus " ORDER BY title". The bind list is `FilterValues(filter)`. |
| `Jobs.PlaceholderAlignment` | models/job.js:41-49 | Each value-bearing predicate's `$n` has 1 <= n <= the number of values. Value n-1 is the one that predicate needs: `"%" + title + "%"` for title, `minSalary` as given for salary. In emission order the placeholders are exactly $1..$k for k bound values, so each value is named once. |
| `Jobs.RenderedPlaceholderAlignment` | models/job.js:42-48 | The same alignment, read off the rendered predicate text: the `$n` after `title ILIKE ` or `salary >= ` parses back to the position of the value that predicate needs. |
| `Jobs.PredicateShape` | models/job.js:41-53 | Number of predicates = number of values + 1 if `hasEquity`, else + 0. `equity > 0` is present exactly when `hasEquity` is set. Predicates appear in the strict order title, salary, equity. |
| `Jobs.FilterInclusion` | models/job.js:41-49 | A title predicate is emitted if and only if `title` is truthy, so an empty string emits none. A salary predicate is emitted if and only if `minSalary` is defined, so `0` emits one. |
| `Jobs.NoEmptyWhere` | models/job.js:55-57 | The WHERE clause is empty if and only if there are no predicates. When present, " WHERE " is followed by the non-empty text of the first predicate. |
| `Jobs.NoFilterQuery` | models/job.js:36-59 | With no recognised filter, which includes `findAll()` with its default `{}`, the query is `SELECT id, title, salary, equity, company_handle FROM jobs ORDER BY title` and the bind list is empty. |
| `Jobs.UpdateQuery` | models/job.js:102-108 | The bind list is `values` followed by the id. The id placeholder in the text is `$` followed by the length of that bind list, so it names the last position, which holds the id. The SET values keep positions 1..\|values\|. |
| `Jobs.ApplyPatch` | models/job.test.js:116-120 | The row after a partial update takes each field present in `data` from `data` and every other field from the old row. `id` and `company_handle` never change. |
| `Jobs.JobTable.Create` | models/job.js:16-28 | Returns a row whose id was not in the table and whose title, salary, equity and company_handle are exactly the given ones. The table afterwards is the old table plus that row. The table invariant is kept: every row is stored under its own id, and the ids are positive and below the serial sequence's next value. |
| `Jobs.JobTable.Get` | models/job.js:70-83 | Succeeds if and only if the id is in the table, and then returns that row. Otherwise it fails with `NotFoundError("No job: <id>")`. |
| `Jobs.JobTable.Update` | models/job.js:95-114 | An error from `sqlForPartialUpdate` is propagated; nothing is sent and the table is unchanged. Otherwise the sent statement is `UpdateQuery(id, setCols, values)`. For an existing id the row becomes `ApplyPatch(old row, data)`, is returned, and every other row is unchanged. For an absent id the result is `NotFoundError` and the table is unchanged. |
| `Jobs.JobTable.Remove` | models/job.js:120-131 | For an existing id, exactly that row is deleted and the call succeeds. For an absent id the result is `NotFoundError` and the table is unchanged. |
| `Jobs.CreateThenGet` | models/job.test.js:82-91 | `get` of the id that `create` returned yields a record equal to the created one, with exactly the given fields. |
| `Jobs.NotFoundForIdZero` | models/job.test.js:93-100 | The fixture table holds one job created through the serial sequence. On it, `get(0)` and `remove(0)` throw `NotFoundError("No job: 0")`. `update(0, …)` throws the same error whenever `sqlForPartialUpdate` succeeds. The update and remove cases are at models/job.test.js:123-134 and 150-157. |
| `CorrectUserOrAdmin.EnsureCorrectUserOrAdmin` | middleware/ensureCorrectUserOrAdmin.js:13-23 | An admin user always gets `next()`, whatever the target username. The owner gets `next()` even when not an admin. No user, or a user who is neither admin nor owner, gets `next(UnauthorizedError)`. The result is the single call of `next`. |
| `SqlText.Digits` | models/job.js:102 | The numeral that `"$" + n` writes is non-empty, made of decimal digits only, and has no leading zero. |
| `SqlText.ParseDigitsOfDigits` | models/job.js:102 | Reading the numeral of n back gives n, so a placeholder's text determines its number. |
| `SqlText.DigitsInjective` | models/job.js:43-48 | Two numerals are equal if and only if the numbers are equal, so distinct bind positions get distinct placeholders. |
| `SqlText.PlaceholderIndexOfPlaceholder` | models/job.js:43 | The placeholder `$n` names position n. |

## Left out

- Running the queries: the Postgres driver, connection handling
  (`db.end()`), `RETURNING`, and async scheduling. `findAll`'s
  result rows are not modelled, so there is no `ILIKE` match, no
  `equity > 0` test on the decimal-string column, and no `ORDER BY`
  sort. The model stops at the query text and bind list that `findAll`
  hands to `db.query`.
- `sqlForPartialUpdate` (helpers/sql) is not part of this model. It is
  a parameter, and the model makes no assumption linking its `setCols`
  and `values` to `data`. In particular the model does not state that
  empty `data` is rejected.
- Jobs.JobTable.Update: the row's new fields come from `data`, not from
  the text of `setCols`. `data` is limited to `title`, `salary` and
  `equity`, as the doc comment of `update` allows. A `data` object with
  other keys is not modelled.
- Jobs.JobTable.Create: store constraints are not modelled (the
  duplicate `BadRequestError` the doc comment mentions, foreign keys,
  `CHECK`s and NULL columns). The code itself has no check for them.
- Values that JavaScript would treat more loosely are not modelled: a
  non-string `title`, a `null` `minSalary`, a non-boolean `hasEquity`,
  and a string id are each restricted to the one type the model uses.
- CorrectUserOrAdmin.EnsureCorrectUserOrAdmin: `req.user.isAdmin` is a
  boolean and both usernames are strings, so undefined-versus-undefined
  comparisons are not modelled. The `res` object and the rest of Express
  are out of scope.
- CorrectUserOrAdmin.EnsureCorrectUserOrAdmin: a `next()` that throws
  synchronously is not modelled. Line 19 calls `next()` inside the
  `try`, so such a throw would make the `catch` call `next(err)` a
  second time. The model assumes `next` returns normally, which is what
  Express's `next` does.
- `jwt_test.js` only prints the output of an external JWT library, so
  it has nothing to model. The test fixtures of `models/job.test.js`
  are setup against a live database and are not modelled either.
