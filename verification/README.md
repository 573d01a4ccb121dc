# Task API core: cached list and stats queries, the predicate builder and the Task record

This project models the part of a per-user task-list API (an Express router over a
SQLite database) that has real logic in it:

- **GET /tasks**. It reads `page`, `limit`, `completed`, `priority`, `category`, `tags`,
  `startDate` and `endDate` from the query string.
  - It derives page, limit and offset. `parseInt` is used when a value is given; otherwise
    page is 1 and limit is 10.
  - It derives the cache key `tasks:<user>:<page>:<limit>:<completed||'all'>:<priority||'all'>`.
  - When the key holds an entry younger than 30 s, it serves that entry as is.
  - Otherwise it builds the parameterised SELECT. It starts from `userId = ?` and appends one
    `AND` clause and its values for each filter present, in a fixed order, then
    `ORDER BY createdAt DESC LIMIT ? OFFSET ?`.
  - It turns each returned row into a `Task`, sends their `toJSON()`, and stores the body
    under the key with the time read before the query.
- **GET /tasks/stats/summary**. The same cache protocol under the key `stats:<user>`, around
  a count query and a completion rate.
- **The `Task` record**:
  - the constructor, with its defaults and the splitting of `tags` at `,`;
  - `validate()`;
  - `toJSON()`;
  - the column encodings the router uses: `completed` stored as 1/0 and read back with
    `=== 1`, and tags stored as their `,`-join.

Modules:

- `JsValues` (js_values.dfy): the JavaScript values and built-ins the core relies on:
  - truthiness and `||`;
  - `parseInt` on decimal text and `${n}` for the integers and NaN this code produces;
  - `trim` (ECMAScript white space);
  - `split(',')` and `join(',')`.
- `TaskModel` (task_model.dfy): models/Task.js as a datatype with a constructor function,
  plus the column encodings of routes/tasks.js.
- `ListQuery` (list_query.dfy): pagination, the two cache keys, the filter predicates, and
  `BuildListQuery`, the imperative builder that grows `sql` and `params` step by step.
- `TtlCache` (ttl_cache.dfy):
  - the 30 s freshness rule as functions on the entry map;
  - `Cache`, a class holding that map, with `Get` and `Set`.
- `TaskRoutes` (task_routes.dfy): the two handlers.
  - `Serve` is the cache protocol they share, as a function.
  - `ListTasks` and `StatsSummary` are methods that update a `Cache` object and a
    `Database` object, proved equal to that function.

The database is an object whose answers are fixed functions of the query it receives, and
which records every query it is sent. A query may fail. The clock (`Date.now()`) is the
`now` parameter.

The code keys the list cache on user, page, limit, completed and priority only, although
the query also filters on category, tags and dates. Two consequences follow, each proved:

- `ListKeyIgnoresOtherFilters` and `FilterChangeServedFromCache`: two requests that differ
  only in category, tags or dates share one cache entry. For 30 s the second request is
  served the first one's result.
- `ListKeyAllSentinel` with `AllCompletedAddsPredicate`: an absent `completed` adds no
  predicate, while `completed=` (empty) or `completed=all` adds `completed = 0`. All three
  share one key, so for 30 s one of them can be served the page computed for another.
  `AllPriorityAddsPredicate` shows the same for priority: an absent or empty priority adds
  no predicate, while `priority=all` adds `priority = 'all'` under the same key.
- `ColonInCompletedCollides`: `completed` is written into the key as given, so a ':' in it
  moves the boundary between the last two segments. `completed=a:b&priority=c` and
  `completed=a&priority=b:c` both give the key `tasks:<user>:1:10:a:b:c`, yet filter on
  different priorities; for 30 s one is served the other's page. `ListKeyInjective` holds
  only for user ids and completed values without ':'.

## Model

| member | source | states |
|---|---|---|
| JsValues.Sub | routes/tasks.js:25 | `page - 1` is NaN exactly when an operand is, and otherwise the difference |
| JsValues.Mul | routes/tasks.js:25 | `(page - 1) * limit` is NaN exactly when an operand is; non-negative operands give a non-negative product |
| JsValues.Trim | models/Task.js:17 | `trim()` is the text with its leading and trailing white space cut off: a window `s[i..j]` of the text with only white space before `i` and after `j`; it is empty exactly when the text is all white space, and otherwise neither starts nor ends with white space |
| JsValues.TrimStart | routes/tasks.js:54 | the result is a suffix of the text; what was dropped is all white space; the result does not start with white space |
| JsValues.TrimEnd | routes/tasks.js:54 | the result is a prefix of the text; what was dropped is all white space; the result does not end with white space |
| JsValues.TrimFacts | models/Task.js:17 | trimming both ends leaves nothing exactly when the text is all white space |
| JsValues.NatToString | routes/tasks.js:27 | the decimal text of a natural number is non-empty and all digits, and is one digit exactly below 10 |
| JsValues.NatToStringValue | routes/tasks.js:27 | reading the decimal text of `n` as digits gives `n` |
| JsValues.NatToStringInjective | routes/tasks.js:27 | distinct natural numbers have distinct decimal texts |
| JsValues.DigitPrefix | routes/tasks.js:23-24 | `parseInt` reads the longest run of digits at the start: every character in it is a digit, and the next character is not |
| JsValues.ParseIntRoundTrip | routes/tasks.js:23-24 | `parseInt` of the decimal text of any integer, negative ones included, is that integer |
| JsValues.ParseUnsigned | routes/tasks.js:23-24 | text with no leading white space or sign parses to its leading digits' value, or to NaN when there are none |
| JsValues.ParseMinus | routes/tasks.js:23-24 | text starting with '-' parses to the negated value of the digits after it, or to NaN |
| JsValues.ParseIntNonNumeric | routes/tasks.js:23-24 | text starting with a character that cannot begin a number parses to NaN |
| JsValues.NumberToStringFirstChar | routes/tasks.js:27 | `${n}` starts with 'N' exactly for NaN and with '-' exactly for a negative integer |
| JsValues.NumberToStringInjective | routes/tasks.js:27 | distinct numbers are written as distinct key segments |
| JsValues.NumberToStringNoColon | routes/tasks.js:27 | a page or limit segment of the key never contains ':' |
| JsValues.Truthy | models/Task.js:5-12 | falsy values are undefined, null, false, 0, NaN and ''; its uses are stated by `NewTask`, `Or` and `CompletedRoundTrip` |
| JsValues.Or | models/Task.js:5-12 | the or-default is truthy iff either operand is; it is the first operand when that is truthy and the second otherwise |
| JsValues.TruthyText | routes/tasks.js:23-24 | a query parameter is truthy iff present and non-empty; its uses are stated by `Paginate` and the `Filters*` lemmas |
| JsValues.ParseInt | routes/tasks.js:23-24 | `parseInt(s)`: its properties are `ParseIntRoundTrip`, `ParseUnsigned`, `ParseMinus` and `ParseIntNonNumeric` |
| JsValues.ParseMagnitude | routes/tasks.js:23-24 | the digits after the sign, hexadecimal after `0x`; stated through `ParseUnsigned`, `ParseMinus` and `ParseIntRoundTrip` |
| JsValues.IntToString | routes/tasks.js:27 | `${n}` for an integer: its value is fixed by `ParseIntRoundTrip`, its injectivity by `NumberToStringInjective` |
| JsValues.NumberToString | routes/tasks.js:27 | `${n}` for an integer or NaN: stated by `NumberToStringFirstChar`, `NumberToStringInjective`, `NumberToStringNoColon` and `ParseIntRoundTrip` |
| JsValues.Join | routes/tasks.js:137 | `join(',')`: `JoinSplit` and `SplitJoin` make it the inverse of `split(',')` |
| JsValues.Split | models/Task.js:11 | `split(',')` gives at least one piece and no piece holds a comma; it gives `[""]` exactly for the empty text |
| JsValues.JoinSplit | models/Task.js:11 | joining the pieces of a split with ',' gives back the text |
| JsValues.SplitWithoutComma | models/Task.js:11 | text without a comma splits into itself alone |
| JsValues.SplitAtFirstComma | models/Task.js:11 | a split cuts at the first comma and then goes on splitting the rest |
| JsValues.SplitJoin | routes/tasks.js:137 | splitting the ','-join of one or more comma-free tags gives back the tags |
| TaskModel.NewTask | models/Task.js:2-13 | id, title, userId and createdAt are copied; description, completed, priority, category and dueDate take '', false, 'medium', null and null when falsy; truthy tags text is split so that its join is the text; falsy tags give []; truthy non-string tags throw a TypeError |
| TaskModel.Validate | models/Task.js:15-20 | it throws exactly when the title is neither nullish nor a string; otherwise the task is valid exactly when its title is not blank and its userId is truthy, and valid iff there is no error; the only messages are the two fixed ones; the title error appears iff the title is nullish or blank; the user error appears iff userId is falsy; with both errors the title error comes first |
| TaskModel.TagsValue | models/Task.js:23 | the tags put into `toJSON()` form an array of strings that reads back as exactly those tags |
| TaskModel.ToJson | models/Task.js:22-24 | `toJSON()` has the ten properties of a task in the constructor's order |
| TaskModel.ToJsonLeadingFields | models/Task.js:22-24 | id, title, description, completed and priority in `toJSON()` are the task's own |
| TaskModel.ToJsonTrailingFields | models/Task.js:22-24 | userId, createdAt, category and dueDate are the task's own; tags is their array |
| TaskModel.GetAt | models/Task.js:23 | a property that no earlier property shadows is read as its own value |
| TaskModel.ToJsonRoundTrip | models/Task.js:22-24 | `toJSON()` loses nothing: the task is read back from it unchanged |
| TaskModel.EncodeCompleted | routes/tasks.js:210 | `completed ? 1 : 0`: stated by `CompletedRoundTrip` and `CompletedFilterAgreesWithStoredFlag` |
| TaskModel.DecodeCompleted | routes/tasks.js:72 | `row.completed === 1`: stated by `CompletedRoundTrip` |
| TaskModel.JoinElement | routes/tasks.js:137 | `String(v)` per array element as `join` applies it; stated by `EncodeTaskTags` |
| TaskModel.InsertValues | routes/tasks.js:127-141 | the eight inserted columns, in the INSERT's order; stated by `StoredTaskRoundTrip` |
| TaskModel.ReadRow | routes/tasks.js:72 | a read row as `{ ...row, completed: row.completed === 1 }`; stated by `StoredTaskRoundTrip` |
| TaskModel.CompletedRoundTrip | routes/tasks.js:210 | writing `completed ? 1 : 0` and reading `=== 1` keeps exactly the truthiness |
| TaskModel.EncodeTags | routes/tasks.js:137 | an array is written as text and anything else is written unchanged |
| TaskModel.EncodeTaskTags | routes/tasks.js:137 | a constructed task's tags are written as their ','-join |
| TaskModel.StoredTaskRoundTrip | routes/tasks.js:127-141 | provided each inserted column reads back as the value written, a task inserted and read back through the constructor is the same task, except for the completed and createdAt columns the insert does not write |
| TaskModel.TagsRoundTrip | models/Task.js:11 | comma-free tags written joined and read back are the same tags, except the single empty tag, which comes back as no tags |
| ListQuery.Paginate | routes/tasks.js:23-25 | page and limit are `parseInt` of non-empty values and 1 and 10 otherwise; offset is NaN exactly when either is, and otherwise `(page - 1) * limit`, non-negative for page >= 1 and limit >= 0 |
| ListQuery.PaginateDecimal | routes/tasks.js:23-25 | page and limit written as decimal integers give exactly those integers and offset `(page - 1) * limit` |
| ListQuery.PaginateNonNumericPage | routes/tasks.js:23 | a page that is not a number gives NaN for page and offset, with no fallback to 1 |
| ListQuery.OrAll | routes/tasks.js:27 | the value, or 'all' when it is falsy: stated by `ListKeyAllSentinel` and `ListKeyInjective` |
| ListQuery.ListKey | routes/tasks.js:27 | the list key: stated by `ListKeyIgnoresOtherFilters`, `ListKeyAllSentinel` and `ListKeyInjective` |
| ListQuery.StatsKey | routes/tasks.js:291 | the stats key: stated by `StatsKeyInjective` and `StatsUsersIndependent` |
| ListQuery.AllCompletedAddsPredicate | routes/tasks.js:42-45 | `completed=all` and an absent completed share one list key, yet `completed=all` gives the predicates of an absent completed with `completed = 0` in front |
| ListQuery.AllPriorityAddsPredicate | routes/tasks.js:47-50 | `priority=all` and an absent priority share one list key, yet `priority=all` adds `priority = 'all'`, which an absent priority never adds |
| ListQuery.CompletedFlag | routes/tasks.js:44 | `completed === 'true' ? 1 : 0`: stated by `FiltersCompleted` and `CompletedFilterAgreesWithStoredFlag` |
| ListQuery.Filters | routes/tasks.js:42-64 | the predicates of a request: stated by the five `Filters*` lemmas, `HalfDateRangeIgnored`, `FiltersOrdered` and `KindsOfFilters` |
| ListQuery.CompletedPart | routes/tasks.js:42-45 | the completed step of the `if` chain: stated by `FiltersCompleted` through `Filters` |
| ListQuery.PriorityPart | routes/tasks.js:47-50 | the priority step: stated by `FiltersPriority` through `Filters` |
| ListQuery.CategoryPart | routes/tasks.js:52-55 | the category step: stated by `FiltersCategory` through `Filters` |
| ListQuery.TagsPart | routes/tasks.js:56-59 | the tags step: stated by `FiltersTags` through `Filters` |
| ListQuery.DueRangePart | routes/tasks.js:61-64 | the date-range step: stated by `FiltersDueRange` and `HalfDateRangeIgnored` through `Filters` |
| ListQuery.SqlFor | routes/tasks.js:39-67 | the query text for the present predicates: stated by `SqlForPlaceholders`, `SqlTextIgnoresValues` and `BuildListQuery` |
| ListQuery.ParamsFor | routes/tasks.js:40-67 | the bound values: stated by `SqlForPlaceholders`, `ListQueryWellFormed` and `BuildListQuery` |
| ListQuery.ColonInCompletedCollides | routes/tasks.js:27 | `completed=a:b` with `priority=c` and `completed=a` with `priority=b:c` give one list key, yet only the first filters on priority `c` |
| ListQuery.ListKeyIgnoresOtherFilters | routes/tasks.js:27 | the list key depends only on user, page, limit, completed and priority |
| ListQuery.ListKeyAllSentinel | routes/tasks.js:27 | absent, empty and 'all' completed or priority values give the same key |
| ListQuery.ListKeyInjective | routes/tasks.js:27 | when the user id and completed value hold no ':', equal keys mean equal user, page, limit, completed-or-all and priority-or-all |
| ListQuery.StatsKeyInjective | routes/tasks.js:291 | each user has a stats key of their own |
| ListQuery.FiltersCompleted | routes/tasks.js:42-45 | the completed predicate is present iff the parameter is present, with value 1 exactly for 'true' |
| ListQuery.FiltersPriority | routes/tasks.js:47-50 | the priority predicate is present iff the parameter is non-empty, with that exact value |
| ListQuery.FiltersCategory | routes/tasks.js:52-55 | the category predicate is present iff the parameter is non-empty, with pattern `%<trimmed>%` |
| ListQuery.FiltersTags | routes/tasks.js:56-59 | the tags predicate is present iff the parameter is non-empty, with pattern `%<untrimmed>%` |
| ListQuery.FiltersDueRange | routes/tasks.js:61-64 | the date range is present iff both ends are non-empty, binding start then end |
| ListQuery.HalfDateRangeIgnored | routes/tasks.js:61 | a range with one end missing adds no predicate at all |
| ListQuery.ShapeOrdered | routes/tasks.js:42-64 | the kinds of predicate a request asks for come in strictly increasing emission order |
| ListQuery.FiltersOrdered | routes/tasks.js:42-64 | the predicates are emitted in the fixed order completed, priority, category, tags, dates, each at most once |
| ListQuery.KindsOfFilters | routes/tasks.js:42-64 | which clauses appear depends only on which filters are present |
| ListQuery.TemplateMatchesBindings | routes/tasks.js:42-64 | each clause has one `?` per value it pushes |
| ListQuery.SelectPlaceholders | routes/tasks.js:39-40 | the base SELECT has one `?`, for the user id |
| ListQuery.PagePlaceholders | routes/tasks.js:66-67 | the ORDER BY / LIMIT / OFFSET tail has two `?`, for limit and offset |
| ListQuery.PlaceholdersAppend | routes/tasks.js:43 | the `?` count of `sql += clause` is the sum of both parts' counts |
| ListQuery.AppendFilter | routes/tasks.js:42-64 | appending one predicate appends its clause to the text and its values to the parameters |
| ListQuery.TemplatesPlaceholders | routes/tasks.js:42-64 | the clauses of any predicates hold one `?` per bound value |
| ListQuery.SqlForPlaceholders | routes/tasks.js:39-67 | the whole query holds exactly one `?` per parameter |
| ListQuery.AddPart | routes/tasks.js:42-45 | one step of the `if` chain leaves the text and values of the predicates so far followed by this step's, if its test passed |
| ListQuery.BuildListQuery | routes/tasks.js:39-67 | the built text is the SELECT, the clauses of the request's predicates in order, and the page tail; the values are the user id, each predicate's values, then limit and offset; placeholders and values agree in number |
| ListQuery.SqlTextIgnoresValues | routes/tasks.js:39-67 | no request value reaches the SQL text: requests with the same filters present get the same text |
| ListQuery.CompletedFilterAgreesWithStoredFlag | routes/tasks.js:44 | a task stored with `completed ? 1 : 0` matches the filter exactly when its truthiness agrees with the parameter being 'true' |
| TtlCache.Lookup | routes/tasks.js:31-36 | an entry is served exactly when the key is present and younger than 30 000 ms, and then it is the stored data |
| TtlCache.Store | routes/tasks.js:83 | a store adds or overwrites the key with the data and the current time; every other key keeps its entry |
| TtlCache.FreshExactlyBeforeTtl | routes/tasks.js:29-33 | a stored entry is a hit up to 30 000 ms after storing and a miss from then on |
| TtlCache.StoreLeavesOtherKeys | routes/tasks.js:83 | storing under one key changes no lookup under another |
| TtlCache.StoreRefreshes | routes/tasks.js:83 | a store makes the key fresh again, expired or not |
| TtlCache.Cache.constructor | routes/tasks.js:17 | a new cache is empty |
| TtlCache.Cache.Get | routes/tasks.js:31-33 | `has`, `get` and the age test give the freshness lookup and change nothing |
| TtlCache.Cache.Set | routes/tasks.js:83 | the map afterwards is the store of the new entry into the old map |
| TaskRoutes.Database.All | routes/tasks.js:70 | the rows are the database's answer to the query, and the query is recorded |
| TaskRoutes.Database.Get | routes/tasks.js:306-312 | the row is the database's answer to the query, and the query is recorded |
| TaskRoutes.Serve | routes/tasks.js:31-36 | the cache protocol of both handlers: this lookup, the store of line 83 and the 500 of lines 89-100; stated by `ServeCachedIffFresh`, `ServeMiss`, `ServeFailureKeepsCache`, `ServeNeverRemoves` and `RepeatWithinTtl` |
| TaskRoutes.FromRow | routes/tasks.js:72 | `{ ...row, completed: row.completed === 1 }`: stated by `RowsToTasks` and `ListOutcome` |
| TaskRoutes.ListRequestQuery | routes/tasks.js:39-70 | the query GET /tasks sends: stated by `ListQueryWellFormed` and, as the query `BuildListQuery` builds, by `ListTasks` |
| TaskRoutes.ListStep | routes/tasks.js:19-101 | GET /tasks as one step of the cache protocol: stated by `ListTasks` and `FilterChangeServedFromCache` |
| TaskRoutes.StatsQuery | routes/tasks.js:306-312 | the count query, bound to the user id: stated by `StatsSummary` |
| TaskRoutes.StatsStep | routes/tasks.js:289-338 | the stats request as one step of the cache protocol: stated by `StatsSummary`, `StatsEmptyRateZero` and `StatsUsersIndependent` |
| TaskRoutes.ServeCachedIffFresh | routes/tasks.js:31-36 | a request is answered from the cache iff its entry is fresh; it then gets the stored data, sends no query and leaves the cache as it was |
| TaskRoutes.ServeMiss | routes/tasks.js:70-88 | on a miss exactly one query is sent; no key but the request's changes; a result is stored with the current time and served uncached |
| TaskRoutes.ServeFailureKeepsCache | routes/tasks.js:89-100 | a request that throws leaves the cache unchanged and answers 500, with the message 'Erro interno do servidor', exactly when it missed |
| TaskRoutes.ServeNeverRemoves | routes/tasks.js:83 | no request removes an entry or changes another key's entry |
| TaskRoutes.RepeatWithinTtl | routes/tasks.js:27-36 | a stored result is served again unchanged, with no query, to each request with the same key before 30 s are up; after that the next request queries again |
| TaskRoutes.RowsToTasks | routes/tasks.js:72 | the rows become tasks one for one, through `completed === 1` and the constructor, or the map throws the constructor's TypeError |
| TaskRoutes.ListBody | routes/tasks.js:76-81 | the body has the page, the limit, the task count, and one `toJSON()` per task from which that task reads back |
| TaskRoutes.ListOutcome | routes/tasks.js:70-81 | after a miss, a body is produced iff the query succeeds and every row makes a task; the count and the number of data objects are the number of rows, and each data object reads back as the task its row makes |
| TaskRoutes.ListTasks | routes/tasks.js:19-101 | the response, the new cache map and the queries sent are those of the cache protocol for the list key, query and body |
| TaskRoutes.FilterChangeServedFromCache | routes/tasks.js:27 | a request differing only in category, tags or dates is served, within 30 s, the earlier request's body with no query |
| TaskRoutes.ListQueryWellFormed | routes/tasks.js:39-67 | the list query binds the user id first and limit and offset last, one value per placeholder |
| TaskRoutes.StatsOf | routes/tasks.js:314-317 | the summary copies total, completed and pending; the rate is 0 exactly when total is not positive, and otherwise the completed/total percentage |
| TaskRoutes.StatsOutcome | routes/tasks.js:306-317 | a summary is produced iff the count query succeeds, and it is that row's summary |
| TaskRoutes.StatsSummary | routes/tasks.js:289-338 | the response, the new cache map and the queries sent are those of the cache protocol for the stats key and query |
| TaskRoutes.StatsEmptyRateZero | routes/tasks.js:316 | a freshly computed summary for a user with no tasks has completion rate 0 |
| TaskRoutes.StatsUsersIndependent | routes/tasks.js:291 | one user's stats request never changes what another user is served from the cache |

## Left out

- The authentication middleware and the per-user rate limiter are left out. The limiter is a configuration of an external library whose counting logic is not part of this model.
- The POST, GET /:id, PUT and DELETE handlers are left out beyond the values they compute. Those values are the insert columns, the 1/0 and tags encodings, and the row-to-task conversion. Their 404 branches are response plumbing.
- Nothing connects the POST handler's `validate()` result to its 400 response.
- SQL execution (`LIKE`, `BETWEEN`, `ORDER BY`, `COUNT`, `SUM`) is not modelled. The database is an oracle: a fixed function from query to answer, which may fail.
- TaskRoutes.StatsOf: the non-zero completion rate is kept symbolic as `RatePercent(completed, total)`. The floating-point division and the `toFixed(2)` rounding are not modelled.
- TaskRoutes.StatsQuery: the stats SQL text has its white space folded to single spaces, and no lemma counts its placeholders.
- JsValues.ParseInt: does not model JavaScript number precision or range. The function does model skipping white space, one sign, a `0x` prefix and the longest digit run. But a digit run beyond 2^53 gives the exact integer, not the nearest double, and a run of about 309 or more digits gives that integer, where `parseInt` gives Infinity.
- JsValues.NumberToString: writes every integer in full and has no Infinity. JavaScript writes integers of 1e21 and above in exponent form (`1e+21`) and writes Infinity as `Infinity`.
- ListQuery.Paginate: for a page or limit text of 1e21 or more, or one that `parseInt` reads as Infinity, the model's key segments and offset differ from the source's. For example, page `1` with an Infinity limit gives the source offset `0 * Infinity`, which is NaN, where the model gives an exact product.
- JsValues.JsValue: has no objects, and its numbers are integers or NaN, with no fractions. Task fields from a JSON body or a database column can hold both. No stated property depends on them: the core only copies such values or tests their truthiness, and `Finite(0)`, a non-zero `Finite` and `Arr` stand in for those cases.
- Query-string values are modelled as absent or a single string. Repeated parameters, which Express turns into arrays, are not modelled.
- Logging, `console.log`, `uuidv4`, `res.status`/`res.json` shaping and the error logger's fields are left out.
- Concurrency is not modelled: requests are handled one at a time, and the interleaving of two requests on the same cache map is left out.
- TaskModel.StoredTaskRoundTrip: assumes every inserted column reads back as exactly the JavaScript value written. SQLite has no boolean or array type: a body with `description: true` is stored and read back as the number 1, not `true`, and the database's type conversions are not modelled.
- TaskModel.ReadRow: takes the read row's columns to be the inserted values unchanged, for the same reason.
- TaskModel.Validate: models `validate()` as called on a constructed task. The title's `trim` is modelled only for nullish and string titles; any other title throws.
