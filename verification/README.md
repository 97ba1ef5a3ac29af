# Financial agent: a Dafny model of its decision rules

The system is a FastAPI service that does four things:

- it takes bank-statement PDFs;
- it schedules a background worker that is meant to turn each one into transaction rows and vector-store records (as scheduled, the call raises before the worker's body runs; see below);
- it keeps per-user budgets and serves a spending dashboard;
- it answers questions through a tool-using chat agent.

Most of it is I/O: the HTTP layer, the PDF reader, the language model, the SQL engine and the vector store. This project models the pure decision rules around that I/O. Every store and every model call becomes a parameter: a function from the request to its outcome.

Modules (one file each):

- `Common` holds the shared vocabulary:
  - the `Option` and `Result` types (`Raised` stands for a Python exception);
  - substring search (`Contains`) and upper-casing of ASCII letters;
  - decimal numerals and joining;
  - sums over `real`;
  - the guarded percentage `Percent(part, whole)`.
- `Dates` models `strptime(s, "%Y-%m-%d")` with its exact token grammar, `date.toordinal()` and ISO formatting. Dates are day numbers.
- `Records` holds the rows of the `documents`, `transactions` and `budgets` tables.
- `Ingestion` models the upload endpoint. It covers:
  - the `.pdf` gate;
  - `os.path.join` and `basename`;
  - the save and its failure;
  - scheduling of the worker.
- `Pipeline` models the worker `process_document_task`. It covers:
  - the committed status trace;
  - one row per extracted candidate, with the date falling back to today;
  - the staged vector ids `"{doc}_{i}"`, texts and metadata;
  - the failure path when structuring raises or the vector store fails;
  - the scheduled call with the endpoint's two arguments.
- `Tools` models the agent's tool functions:
  - the SQL deny-list and result shaping;
  - the budget report and its percentage rule;
  - the vector search;
  - the schema text.
- `Budgets` models the budget endpoints: upsert by (user, category), `read_budgets`, and `get_budget_status` with `spent`, `remaining` and `percent_used`.
- `Dashboard` models the dashboard endpoint:
  - the time-range window;
  - the filters and bind parameters;
  - total, top category and breakdown;
  - day or month buckets.
- `Agent` models the chat agent:
  - the tool wrappers and the system prompt;
  - the prepend rule and the one-message step;
  - `should_continue` and the tools node;
  - the graph `agent -> tools -> agent`, run with fuel.
- `Tenancy` proves a consequence across modules of the ownership the code leaves unset.

The model follows the code as written, including its gaps. It does not add tenant scoping:

- The worker takes only the file path, although the endpoint schedules it with the user id as well. The scheduled call therefore raises `TypeError` (one positional argument expected, two given) before the body runs, so no upload ever yields a document, a row or a vector record (`Pipeline.ScheduledWorkerNeverRuns`). `Pipeline.ProcessDocumentTask` models the body as a one-argument call would run it. The documents that body creates have no owner (`userId == None`), and the vector metadata carries no user id.
- `Tenancy.ProcessingAddsNoSpending` proves a consequence for that one-argument body: even if it ran, processing a statement would never change any user's budget `spent`.
- The budget report tool reads every user's budgets. The vector search applies no filter.
- Nothing in the code sets the context variable `user_id_context`. The prompt therefore reads `CURRENT USER ID: None` in practice. `Agent.SystemPrompt` takes the id as an `Option`.
- The three visible tool wrappers call their targets wrongly:
  - two pass an argument the target does not accept;
  - one awaits a synchronous function's result.

  So all three raise; see `Agent.RunWrapper`.
- The prompt tells the model to filter on `user_id`, but the schema it shows has no such column (`Agent.PromptFilterNotInSchema`). The dashboard's filter names a `user_id` column that the `transactions` table of `app/models/sql.py` does not have. The dashboard therefore takes the query results, or the error the database raises, as parameters.

Floating-point amounts are `real`, and values are stated before `round(…, 1)`. Number formatting (`str(float)`, `:.2f`, `:.1f`) is a parameter of type `real -> string`.

## Model

| member | source | states |
|---|---|---|
| Common.Percent | app/services/tools.py:102 | With a positive whole the result times the whole is the part times 100. Otherwise the result is 0, so there is no division by zero. A part between 0 and the whole gives a result between 0 and 100. |
| Common.Upper | app/services/tools.py:11 | `query.upper()` keeps the length and upper-cases every ASCII letter position by position. |
| Common.JoinFramed | app/services/tools.py:130-138 | A text joined with a separator and wrapped in it opens with the separator and the first part and closes with the last part and the separator. |
| Dates.ParseIso | app/services/pdf.py:55 | Any text `strptime(…, "%Y-%m-%d")` accepts names a valid calendar date (year 1–9999, day within the month). |
| Dates.Ordinal | app/services/pdf.py:55 | The day number of a date falls strictly inside the span of its year and is at least 1 (`toordinal`). |
| Dates.ParseFormatRoundTrip | app/services/pdf.py:54-55 | Every valid date written in ISO form parses back to itself. |
| Dates.UnpaddedDateParses | app/services/pdf.py:55 | `strptime` accepts `2024-1-5` as 5 January 2024, because `%m` and `%d` take one digit. |
| Dates.NonexistentDateRejected | app/services/pdf.py:54-57 | `2023-02-29` is rejected, not clamped, so the worker falls back to today. |
| Ingestion.JoinPath | app/api/v1/endpoints/ingestion.py:26 | `os.path.join` ends with the file name. An absolute name replaces the directory; otherwise one separator is inserted. |
| Ingestion.Basename | app/services/pdf.py:28 | `os.path.basename` is a separator-free suffix of the path, preceded by a separator unless it is the whole path. |
| Ingestion.IngestDocument | app/api/v1/endpoints/ingestion.py:23-41 | A 400 response happens exactly when the name lacks `.pdf`, and then nothing is written or scheduled. The saved path is the upload directory joined with the name. A save error gives 500 `Could not save file: e`. A task is scheduled iff the upload is accepted; it is exactly one task with that path and the user id, and the response echoes the file name. |
| Ingestion.UploadPathConfinement | app/api/v1/endpoints/ingestion.py:26 | The saved path's text starts with `uploads/` exactly when the uploaded name is not absolute. This is a fact about the text only: `..` segments are not resolved. |
| Ingestion.ParentSegmentEscapes | app/api/v1/endpoints/ingestion.py:23-31 | The name `../x.pdf` passes the `.pdf` check and gives the path `uploads/../x.pdf`, whose text starts with `uploads/` but which names a file outside the upload directory. |
| Ingestion.WorkerSeesUploadedName | app/services/pdf.py:28 | For a name without separators, the worker's `basename` of the saved path is the uploaded name. |
| Pipeline.TransactionDate | app/services/pdf.py:54-57 | A date text that does not parse gives today. A parsed one gives a day number inside the span of the parsed year. |
| Pipeline.BuildRows | app/services/pdf.py:52-67 | There is exactly one row per candidate, in order, none dropped. Each row carries the new document's id and the parsed-or-today date, and keeps the candidate's merchant, amount, currency and category. |
| Pipeline.IsoDateKept | app/services/pdf.py:54-55 | A well-formed ISO date keeps its own day. |
| Pipeline.DateWithoutDashFallsBack | app/services/pdf.py:56-57 | A date text that does not parse is replaced by today, not rejected. |
| Pipeline.VectorIdRoundTrip | app/services/pdf.py:80 | Every id `"{doc}_{i}"` reads back as its document and position. |
| Pipeline.VectorIdInjective | app/services/pdf.py:80 | Equal ids have equal documents and positions. |
| Pipeline.VectorText | app/services/pdf.py:84 | The searchable text opens with the merchant and ` (`, and closes with the rendered amount, a space and the currency. |
| Pipeline.MetadataCategory | app/services/pdf.py:89 | The metadata category is never empty. It is the candidate's category when that is present and non-empty, and `Unknown` otherwise. |
| Pipeline.StageBatch | app/services/pdf.py:74-93 | The id, text and metadata lists each have one entry per candidate. The metadata keeps the raw date text, the document id, the merchant, the amount and the defaulted category. |
| Pipeline.StageVectors | app/services/pdf.py:74-93 | The worker's loop over `enumerate` builds exactly the batch `StageBatch` describes. |
| Pipeline.StagedIdsDistinct | app/services/pdf.py:78-81 | The staged ids are pairwise distinct, so n candidates give n records. |
| Pipeline.IdsOfDistinctDocumentsDisjoint | app/services/pdf.py:80 | Ids staged for different documents never collide. |
| Pipeline.WorkerPrefix | app/services/pdf.py:33-72 | The document is committed as `processing` before extraction and structuring. Then come one add per row and the collection lookup. Before the vector stage no other status is committed and nothing is written to the store. |
| Pipeline.VectorStage | app/services/pdf.py:95-105 | The stage commits exactly one terminal status. `completed` holds iff the collection opens and either nothing is staged or the add succeeds. `add` runs iff something is staged and the collection opened. |
| Pipeline.WorkerSteps | app/services/pdf.py:33-105 | A whole run commits `processing` first and then exactly one terminal status, never going back. `add` appears iff something is staged and the collection opened. |
| Pipeline.StructuringFailedSteps | app/services/pdf.py:42-47 | When structuring raises, the run commits `processing`, extracts, attempts structuring and then commits `failed`, and nothing else. |
| Pipeline.StructuredRun | app/services/pdf.py:49-100 | Once structuring yields candidates, the rows are committed on both terminal paths. The collection is looked up. `completed` holds iff it opens and either nothing is staged or the add succeeds. Only a non-empty batch is written, and only on success. |
| Pipeline.ProcessDocumentTask | app/services/pdf.py:24-105 | In the body of a one-argument call, the statuses committed are exactly `processing` then `completed` or `failed`, never regressing. The document gets the id, timestamp and base name, with no owner. A raising structuring call gives `failed` with no rows, no collection lookup and no vectors. Otherwise the rows are committed on both paths. The vector store is written only with the non-empty staged batch on success. |
| Pipeline.TaskArgs | app/api/v1/endpoints/ingestion.py:36 | The scheduled call carries two arguments, the saved path first. |
| Pipeline.InvokeWorker | app/services/pdf.py:24-28 | The body runs iff the call has exactly one argument and it is a path. Otherwise the call raises: two or more arguments give the arity `TypeError`, none gives the missing-argument error, and an integer path fails at `basename`. |
| Pipeline.ScheduledWorkerNeverRuns | app/api/v1/endpoints/ingestion.py:36 | For every accepted upload, the one scheduled task raises `process_document_task() takes 1 positional argument but 2 were given`. It creates nothing. |
| Tools.Denied | app/services/tools.py:11-12 | A denied query is at least four characters long, the length of the shortest denied word. |
| Tools.RunSqlQuery | app/services/tools.py:5-23 | A query is denied iff its upper-cased text contains DROP, DELETE or INSERT. A denied query is answered `Error: Read-only access.` and never executed. Otherwise it is executed once. Non-empty rows are returned as they are, no rows give `No results found.`, and a fault gives `Database Error: ` plus the message. |
| Tools.PassesGuardWithout | app/services/tools.py:11 | A query missing one letter of each denied word, in either case, passes the guard. |
| Tools.UpdatePassesGuard | app/services/tools.py:11 | An UPDATE statement is not denied. |
| Tools.CreatePassesGuard | app/services/tools.py:11-12 | A `CREATE TABLE` statement passes the guard for every table name that contains none of the letters P, D and S in either case: none of the denied words can then occur in the query. |
| Tools.AlterPassesGuard | app/services/tools.py:11 | An ALTER TABLE statement is not denied. |
| Tools.KeywordInsideLiteralIsDenied | app/services/tools.py:11 | A harmless SELECT that mentions `Dropbox` in a string literal is denied, because the check is a plain substring search. |
| Tools.LowerCaseKeywordIsDenied | app/services/tools.py:11 | A lower-case `drop table` is denied, because the text is upper-cased first. |
| Tools.ReportLines | app/services/tools.py:100-103 | There is one report line per returned tuple, in order. The percentage is spent/limit·100 for a positive limit and 0 otherwise. |
| Tools.CheckBudgetStatus | app/services/tools.py:92-108 | A query error gives `Budget Tool Error: e`. No tuples give `No budgets set.` Otherwise the report is the `Budget Report:` header followed by the rendered lines. |
| Tools.ReportHasOneLinePerRow | app/services/tools.py:99-105 | The report starts with its header and has exactly one line break per tuple plus one, when no rendered field contains a line break. |
| Tools.SearchVectorDb | app/services/tools.py:110-124 | The collection is queried with the single query text and `n_results`, with no filter. The answer is the first document list. A store error gives `Vector Store Error: e`, and an empty result gives the IndexError text. |
| Tools.SearchWithDefaultCount | app/services/tools.py:110 | Without an explicit count the collection is asked for 5 results for the single query text. |
| Tools.SearchErrorsAreValues | app/services/tools.py:110-124 | Every message the search returns starts with `Vector Store Error: `. Two collections that answer the same request alike give the same result, since the request depends on neither the caller nor the collection. |
| Tools.DbSchema | app/services/tools.py:126-138 | The schema text opens with a line break, the indentation and `Table: transactions`, and closes with the last column line, a line break and the indentation. |
| Tools.SchemaListsColumns | app/services/tools.py:126-138 | The schema text names the `transactions` table and each of its five columns. |
| Tools.SchemaOmitsOwnerColumns | app/services/tools.py:130-138 | The schema text mentions neither `user_id` nor `document_id`. |
| Budgets.FindBudget | app/api/v1/endpoints/budgets.py:19-26 | The lookup returns the first row of the (user, category) pair, or none when there is no such row. |
| Budgets.NextId | app/api/v1/endpoints/budgets.py:34-41 | A new row's id exceeds every existing id. |
| Budgets.Upsert | app/api/v1/endpoints/budgets.py:13-42 | An existing (user, category) row gets the new amount, and no other row changes or is added. Otherwise exactly one row is appended, with the user, the category, the amount and a fresh id. |
| Budgets.UpsertResponse | app/api/v1/endpoints/budgets.py:28-42 | The response echoes the category and the new amount. |
| Budgets.UpsertPreservesUniqueness | app/api/v1/endpoints/budgets.py:19-42 | Upsert keeps (user, category) unique and ids distinct. |
| Budgets.UpsertLeavesOtherKeys | app/api/v1/endpoints/budgets.py:28-42 | Every row of another user or another category keeps its place and value. |
| Budgets.UpsertLeavesOneRow | app/api/v1/endpoints/budgets.py:19-42 | Afterwards the pair has exactly one row, and it holds the new amount. |
| Budgets.UpsertIdempotent | app/api/v1/endpoints/budgets.py:19-32 | Repeating the same upsert changes nothing further. |
| Budgets.ReadBudgets | app/api/v1/endpoints/budgets.py:44-52 | A budget is listed iff it is in the table and belongs to the caller. |
| Budgets.Spent | app/api/v1/endpoints/budgets.py:73-78 | With no transactions `spent` is 0.0, and with non-negative amounts it is never negative. |
| Budgets.SpentWithoutMatches | app/api/v1/endpoints/budgets.py:73-78 | With no matching transaction `spent` is 0. |
| Budgets.SpentIgnoresOthers | app/api/v1/endpoints/budgets.py:73-76 | Transactions of documents the caller does not own leave `spent` unchanged. |
| Budgets.StatusOf | app/api/v1/endpoints/budgets.py:80-89 | `remaining + spent == limit`. `percent_used` is spent/limit·100 for a positive limit and 0 otherwise. Category, limit and spent are carried over. |
| Budgets.SumSpent | app/api/v1/endpoints/budgets.py:73-78 | The loop computes the sum of the caller's transactions in the category, via document ownership. |
| Budgets.GetBudgetStatus | app/api/v1/endpoints/budgets.py:54-91 | There is one status per budget of the caller, in the same order, each with that budget's spending. |
| Dashboard.RequestedRange | app/api/v1/endpoints/dashboard.py:15 | An absent `time_range` means `30d`. A present one yields the range with that code, and it is rejected only when no range has that code. |
| Dashboard.ParseTimeRange | app/schemas/dashboard.py:6-13 | Only the seven codes are accepted, and each maps to the range with that code. |
| Dashboard.TimeRangeRoundTrip | app/schemas/dashboard.py:6-13 | Every range is read back from its code. |
| Dashboard.StartOffset | app/api/v1/endpoints/dashboard.py:25-37 | Only `all` has no start offset. |
| Dashboard.StartDate | app/api/v1/endpoints/dashboard.py:21-37 | There is a start date iff the range is not `all`, and it lies before today. |
| Dashboard.WindowsNested | app/api/v1/endpoints/dashboard.py:25-37 | A wider range never starts later than a narrower one. |
| Dashboard.LongRangeIffWideWindow | app/api/v1/endpoints/dashboard.py:91 | Month buckets are used iff the window is unbounded or at least 180 days. |
| Dashboard.DateColumn | app/api/v1/endpoints/dashboard.py:91-98 | The month expression is used for 6m, 1y and all; the day column is used otherwise. |
| Dashboard.KeyNamesInjective | app/api/v1/endpoints/dashboard.py:41-54 | `uid`, `start_date` and the `cat_i` keys are pairwise distinct names. |
| Dashboard.BindCategories | app/api/v1/endpoints/dashboard.py:50-54 | `cat_i` is bound to the i-th category in input order, adding exactly k keys, with the placeholders `:cat_0`… in order. |
| Dashboard.BuildFilters | app/api/v1/endpoints/dashboard.py:39-56 | The user filter comes first. The date filter is added iff there is a start date. One `IN` clause is added iff a category is selected. The bound keys are exactly `uid`, possibly `start_date`, and `cat_0`…`cat_{k-1}`. |
| Dashboard.WhereClause | app/api/v1/endpoints/dashboard.py:58 | The clause starts with ` WHERE `. A single filter gives ` WHERE ` followed by exactly that filter. |
| Dashboard.WhereClauseBindsCategories | app/api/v1/endpoints/dashboard.py:50-58 | The where clause contains the `IN` clause, and every placeholder in it names a bound parameter. |
| Dashboard.TotalSpent | app/api/v1/endpoints/dashboard.py:77 | No rows give 0.0, and non-negative category totals give a non-negative total. |
| Dashboard.TopCategory | app/api/v1/endpoints/dashboard.py:78 | The top category is the first row's category, which may be null. There is none when there are no rows. |
| Dashboard.Label | app/api/v1/endpoints/dashboard.py:84 | A null or empty category is shown as `Uncategorized`; any other keeps its name. |
| Dashboard.StatOf | app/api/v1/endpoints/dashboard.py:82-87 | The percentage is total/total_spent·100 when total_spent > 0 and 0 otherwise. |
| Dashboard.Breakdown | app/api/v1/endpoints/dashboard.py:80-87 | There is one entry per row, in row order. |
| Dashboard.Trend | app/api/v1/endpoints/dashboard.py:110 | There is one point per trend row, with its period and total. |
| Dashboard.Aggregate | app/api/v1/endpoints/dashboard.py:77-117 | The response has one breakdown entry per category row and one trend point per trend row, in order, with their labels and amounts. No category rows give a zero total, no top category and an empty breakdown; otherwise the top category is the first row's. With a positive total the shares add up to 100, and otherwise every share is 0. |
| Dashboard.BreakdownSumsToHundred | app/api/v1/endpoints/dashboard.py:77-87 | With positive spending the percentages add up to 100 before rounding. |
| Dashboard.BreakdownZeroWithoutSpending | app/api/v1/endpoints/dashboard.py:82 | Without positive spending every percentage is 0. |
| Dashboard.RefundExceedsHundred | app/api/v1/endpoints/dashboard.py:82 | A negative row can push another category above 100 percent. |
| Dashboard.TopCategoryIsLargest | app/api/v1/endpoints/dashboard.py:72-78 | Under the query's descending order the top category has the largest total. |
| Dashboard.GetDashboardStats | app/api/v1/endpoints/dashboard.py:12-117 | The user filter comes first. The date filter is present iff the range is not `all`. The period expression follows the range. A query error propagates; otherwise the response is the aggregate. |
| Agent.RunWrapper | app/services/agent.py:13-44 | The SQL, search and budget wrappers always raise a TypeError: two pass an extra argument and one awaits a plain value. The diagnostics outcome is a parameter. |
| Agent.UserIdText | app/services/agent.py:62-67 | An unset context renders as `None`; a set one renders as its decimal number. |
| Agent.SystemPrompt | app/services/agent.py:64-80 | The prompt contains `CURRENT USER ID: <id>`, the schema text, and the instruction to filter by `user_id = <id>`. |
| Agent.AgentPrompt | app/services/agent.py:59-80 | The agent's prompt embeds the user id and the schema tool's text. |
| Agent.PromptFilterNotInSchema | app/services/agent.py:74 | The prompt asks for a `user_id = ` filter, while the schema it shows has no `user_id`. |
| Agent.ModelInput | app/services/agent.py:84-85 | The model input starts with a system message and ends with the whole history. It adds at most one message, and equals the history iff the history already starts with a system message; otherwise the added message is the agent's own prompt. |
| Agent.ModelInputIdempotent | app/services/agent.py:84-85 | Applying the prepend rule again adds nothing. |
| Agent.AgentNode | app/services/agent.py:52-91 | The node raises exactly when the history is empty (`messages[0]`) or the model call raises (building the client or invoking it), and then with that error. Otherwise the update is one model reply carrying the model's content and tool calls for the prepared input. |
| Agent.AddMessages | app/services/agent.py:47-49 | The reducer keeps the history as a prefix and appends the update. |
| Agent.AgentStep | app/services/agent.py:84-91 | A step raises exactly when the history is empty or the model call raises. Otherwise it grows the history by exactly one model reply with the model's tool calls, and the system message is not stored. |
| Agent.ShouldContinue | app/services/agent.py:93-99 | The route is `tools` iff the last message is a reply with tool calls, and `__end__` iff it is a reply without any. Anything else raises. |
| Agent.ToolReplies | app/services/agent.py:106 | There is one tool message per call, in order, each carrying its call's id and the executor's text for that call. |
| Agent.ToolsNode | app/services/agent.py:106 | There is one tool message per call of the last reply, in order, each carrying its call's id. It raises iff the last message is not a model reply. |
| Agent.OneRound | app/services/agent.py:84-110 | An empty history crashes in the `agent` step. A crash happens in `agent` or in `tools`; any other round extends the history without storing a system message, and a round that ends leaves a model answer without tool calls last. |
| Agent.AfterAgent | app/services/agent.py:93-110 | After the agent step, the round crashes iff the history is empty or its last message is not a model reply, ends iff that reply asks for no tool (leaving the history unchanged), and otherwise appends at least as many messages as the reply requested calls. |
| Agent.OneRoundOutcome | app/services/agent.py:84-110 | A round crashes iff the history is empty or the model call raises, ends iff the model answers without tool calls, and when it loops adds the reply and at least one message per requested call. |
| Agent.Loop | app/services/agent.py:102-112 | For any round with the shape of the compiled graph's rounds, the run starts at `agent` and follows only the edges `agent -> tools`, `agent -> end` and `tools -> agent`, reaching `end` only as its last step and exactly when it finishes. A crashing first round is the run's outcome. A run that does not crash only appends to its history; a finished one ends with a model answer without tool calls. |
| Agent.Run | app/services/agent.py:102-112 | The compiled graph's run follows the graph's edges as above, only appends to the history and stores no system message, and finishes with a model answer without tool calls. An empty history crashes in the first `agent` step. |
| Agent.ModelErrorCrashesRun | app/services/agent.py:87-90 | When the model call raises on the first prepared input, the run crashes with that error in its first `agent` step. |
| Agent.FuelIrrelevant | app/services/agent.py:108-110 | For any well-shaped round, more fuel never changes a finished run, so the fuel is not a bound of the program. |
| Agent.LoopNeverEnds | app/services/agent.py:108-110 | If every round on a non-empty history loops and adds at least two messages, the run runs out of fuel, with at least two messages added per round. |
| Agent.NoRoundCap | app/services/agent.py:108-110 | A model that always asks for a tool never finishes, for any amount of fuel. The history grows by at least two messages per round. |
| Tenancy.UnownedDocumentKeepsOwnership | app/api/v1/endpoints/budgets.py:73-76 | Adding a document without an owner changes nobody's ownership of any transaction. |
| Tenancy.SpentUnderSameOwnership | app/api/v1/endpoints/budgets.py:73-78 | `spent` depends on the documents only through ownership. |
| Tenancy.UnownedUploadAddsNoSpending | app/services/pdf.py:33-37 | An ownerless document and its rows add nothing to anyone's spending. |
| Tenancy.ProcessingAddsNoSpending | app/services/pdf.py:24-67 | Were the one-argument body to run, processing an uploaded statement would never change any budget's `spent`, whether structuring succeeds or raises. |

## Left out

- PDF text extraction (`extract_text`, pypdf) and the language-model structuring call (`clean_data_with_llm`) are foreign libraries. What structuring yields is an input of the worker: the candidates, or an exception. `extract_text` returns empty text on any error. `clean_data_with_llm` returns no candidates without an API key or when the model call fails (app/services/extraction.py:10-12, 32-36). Building the model client, the structured output and the prompt happens outside its `try` (app/services/extraction.py:14-30), so an error there raises into the worker, which marks the document `failed`.
- SQL execution, and the SQL text of the budget, report and dashboard queries, are not modelled. Their results are modelled as sequences of rows, or an error, given as parameters. `get_budget_status` is modelled as the meaning of its join over in-memory rows.
- The vector store client and embeddings are left out. Opening the collection and `add` are modelled only by their possible error.
- Authentication, JWT and password hashing are credential plumbing and are left out.
- The chat HTTP endpoint and the context variable are left out. The user id the prompt shows is a parameter; nothing in the code sets it.
- Concurrency of background tasks and database sessions is left out. Database commits and refreshes are assumed to succeed. A failing commit on the failure path would leave the document `processing`; that case is not modelled.
- The React frontend is left out.
- Common.Percent: values are stated before `round(…, 1)`. Float arithmetic is exact `real` arithmetic, so rounding and overflow are not modelled.
- Tools.CheckBudgetStatus: the `:.2f` and `:.1f` formatting is a parameter, so the exact digits of a report line are not stated.
- Common.Upper: `str.upper()` is modelled for ASCII letters only; every other character is kept unchanged. Python also maps some non-ASCII letters to ASCII ones without changing length (`ı` to `I`, `ſ` to `S`), and some characters to several characters. None of that is modelled.
- Tools.PassesGuardWithout: stated for the ASCII upper-casing above. In Python a query that spells a denied word with `ı` or `ſ` (such as `ınsert ınto t values (1)`) upper-cases to the denied word and is denied, so the lemma does not hold for such queries in the program.
- Budgets.NextId: the `Budget` class that app/api/v1/endpoints/budgets.py:8 imports is missing from app/models/sql.py. As written, the import fails when the module loads and `create_all` creates no budgets table. The model assumes a budgets table whose ids are assigned like SQLite rowids, one past the largest.
- Dates.ParseIso: `%Y`, `%m` and `%d` accept ASCII digits only. Python's regular expressions also accept other Unicode decimal digits.
- Agent.Run: the library's default recursion limit is not modelled. The fuel parameter only makes the definition total and is not a bound of the program.
- Agent.Loop: the same holds for its fuel parameter, which `Agent.Run` passes through.
- Agent.AddMessages: the `add_messages` reducer is modelled for messages with fresh ids. Replacement of a message with an existing id is not modelled.
- Agent.ToolsNode: assumes that `ToolNode` turns every error a tool raises into a tool message, and how it words that message is a parameter. This depends on the langgraph version's `handle_tool_errors` default; newer defaults re-raise errors other than argument validation errors, and then a tools step would crash the run.
- The diagnostics tool is left out. Its target `diagnose_spending` is imported by the agent but is not defined in the tools module, so it is a parameter. As written, that import would fail when the module loads; the model assumes the module loads.
