/** The agent's tool functions: the read-only guard and result shaping of
    `run_sql_query`, the report of `check_budget_status`, the error-as-value
    contract of `search_vector_db` and the fixed schema text of
    `get_db_schema`. The database and the vector collection are function
    parameters; number formatting is a parameter too. */
module Tools {
  import opened Common

  // ---------------------------------------------------------------------
  // run_sql_query
  // ---------------------------------------------------------------------

  datatype Cell = IntCell(i: int) | RealCell(r: real) | TextCell(s: string) | NullCell

  /** `dict(row._mapping)`: column name to value. */
  type Row = map<string, Cell>

  /** What executing a statement does: rows fetched, or an exception. */
  datatype Execution = Fetched(rows: seq<Row>) | ExecError(message: string)

  /** The tool's return value: a message string or a list of row mappings. */
  datatype SqlAnswer = Message(text: string) | Records(rows: seq<Row>)

  /** The answer together with the statements sent to the database. */
  datatype SqlRun = SqlRun(answer: SqlAnswer, executed: seq<string>)

  const ReadOnlyError: string := "Error: Read-only access."
  const NoResults: string := "No results found."
  const DatabaseErrorPrefix: string := "Database Error: "

  /** The substring deny-list: exactly these three words, searched in the
      upper-cased query text. */
  predicate Denied(query: string)
    ensures Denied(query) ==> |query| >= 4
  {
    var u := Upper(query);
    Contains(u, "DROP") || Contains(u, "DELETE") || Contains(u, "INSERT")
  }

  /** `run_sql_query(query)`. */
  function RunSqlQuery(query: string, execute: string -> Execution): (r: SqlRun)
    // a denied query is answered with the read-only error and never executed
    ensures Denied(query) <==> r.answer == Message(ReadOnlyError)
    ensures Denied(query) <==> r.executed == []
    ensures !Denied(query) ==> r.executed == [query]
    // result shaping
    ensures r.answer.Records? <==> !Denied(query) && execute(query).Fetched? && execute(query).rows != []
    ensures r.answer.Records? ==> r.answer.rows == execute(query).rows
    ensures !Denied(query) && execute(query) == Fetched([]) ==> r.answer == Message(NoResults)
    // faults are returned, never raised
    ensures !Denied(query) && execute(query).ExecError? ==>
              r.answer == Message(DatabaseErrorPrefix + execute(query).message)
  {
    if Denied(query) then SqlRun(Message(ReadOnlyError), [])
    else
      var answer :=
        match execute(query)
        case ExecError(e) => Message(DatabaseErrorPrefix + e)
        case Fetched(rows) => if rows == [] then Message(NoResults) else Records(rows);
      assert DatabaseErrorPrefix[0] != ReadOnlyError[0];
      SqlRun(answer, [query])
  }

  /** A query lacking, in either case, one letter of each denied word
      passes the guard. */
  lemma PassesGuardWithout(q: string, d: char, e: char, i: char)
    requires d in "DROP" && e in "DELETE" && i in "INSERT"
    requires LacksLetter(q, d) && LacksLetter(q, e) && LacksLetter(q, i)
    ensures !Denied(q)
  {
    UpperMissingLetter(q, d);
    MissingCharExcludes(Upper(q), "DROP", d);
    UpperMissingLetter(q, e);
    MissingCharExcludes(Upper(q), "DELETE", e);
    UpperMissingLetter(q, i);
    MissingCharExcludes(Upper(q), "INSERT", i);
  }

  /** Mutating statements outside the three words pass the guard. */
  lemma UpdatePassesGuard()
    ensures !Denied("UPDATE t SET a = 0")
  {
    var q := "UPDATE t SET a = 0";
    assert LacksLetter(q, 'R') by { assert forall k | 0 <= k < |q| :: q[k] != 'R' && q[k] != 'r'; }
    assert LacksLetter(q, 'L') by { assert forall k | 0 <= k < |q| :: q[k] != 'L' && q[k] != 'l'; }
    assert LacksLetter(q, 'I') by { assert forall k | 0 <= k < |q| :: q[k] != 'I' && q[k] != 'i'; }
    PassesGuardWithout(q, 'R', 'L', 'I');
  }

  /** Creating a table passes the guard for every table name that spells
      none of P, D and S in either case. */
  lemma CreatePassesGuard(name: string)
    requires LacksLetter(name, 'P') && LacksLetter(name, 'D') && LacksLetter(name, 'S')
    ensures !Denied("CREATE TABLE " + name)
  {
    var h := "CREATE TABLE ";
    assert LacksLetter(h, 'P') by { assert forall k | 0 <= k < |h| :: h[k] != 'P' && h[k] != 'p'; }
    assert LacksLetter(h, 'D') by { assert forall k | 0 <= k < |h| :: h[k] != 'D' && h[k] != 'd'; }
    assert LacksLetter(h, 'S') by { assert forall k | 0 <= k < |h| :: h[k] != 'S' && h[k] != 's'; }
    PassesGuardWithout(h + name, 'P', 'D', 'S');
  }

  lemma AlterPassesGuard()
    ensures !Denied("ALTER TABLE t RENAME TO u")
  {
    var q := "ALTER TABLE t RENAME TO u";
    assert LacksLetter(q, 'D') by { assert forall k | 0 <= k < |q| :: q[k] != 'D' && q[k] != 'd'; }
    assert LacksLetter(q, 'I') by { assert forall k | 0 <= k < |q| :: q[k] != 'I' && q[k] != 'i'; }
    PassesGuardWithout(q, 'D', 'D', 'I');
  }

  /** The match is on raw text, so a harmless read naming a merchant that
      contains a keyword is refused. */
  lemma KeywordInsideLiteralIsDenied()
    ensures Denied("SELECT * FROM transactions WHERE merchant = 'Dropbox'")
  {
    var q := "SELECT * FROM transactions WHERE merchant = 'Dropbox'";
    var u := Upper(q);
    assert u[45..49] == "DROP";
    assert OccursAt(u, "DROP", 45);
  }

  /** Lower case does not slip past the guard. */
  lemma LowerCaseKeywordIsDenied()
    ensures Denied("drop table budgets")
  {
    var u := Upper("drop table budgets");
    assert u[..4] == "DROP";
    assert OccursAt(u, "DROP", 0);
  }

  // ---------------------------------------------------------------------
  // check_budget_status
  // ---------------------------------------------------------------------

  /** One tuple of the report query: `(email, category, limit, spent)`.
      The query joins every user's budgets; it is not restricted to the
      caller. */
  datatype BudgetRow = BudgetRow(email: string, category: string, limit: real, spent: real)

  datatype ReportQuery = ReportRows(rows: seq<BudgetRow>) | ReportError(message: string)

  /** One report line before formatting. */
  datatype ReportLine = ReportLine(email: string, category: string, spent: real, limit: real, percent: real)

  const NoBudgets: string := "No budgets set."
  const ReportTitle: string := "Budget Report:"
  const ReportHeader: string := ReportTitle + "\n"
  const BudgetErrorPrefix: string := "Budget Tool Error: "

  /** One line per returned tuple, in order, with the guarded percentage. */
  function ReportLines(rows: seq<BudgetRow>): (lines: seq<ReportLine>)
    ensures |lines| == |rows|
    ensures forall i :: 0 <= i < |rows| ==>
              && lines[i].email == rows[i].email && lines[i].category == rows[i].category
              && lines[i].spent == rows[i].spent && lines[i].limit == rows[i].limit
              && (rows[i].limit > 0.0 ==> lines[i].percent * rows[i].limit == rows[i].spent * 100.0)
              && (rows[i].limit <= 0.0 ==> lines[i].percent == 0.0)
  {
    seq(|rows|, i requires 0 <= i < |rows| =>
      ReportLine(rows[i].email, rows[i].category, rows[i].spent, rows[i].limit,
                 Percent(rows[i].spent, rows[i].limit)))
  }

  /** The fields of a report line; `money` renders `:.2f` and `pct`
      renders `:.1f`. */
  function LineFields(l: ReportLine, money: real -> string, pct: real -> string): seq<string> {
    ["User: ", l.email, " | Category: ", l.category, " | Spent: $", money(l.spent),
     " / $", money(l.limit), " (", pct(l.percent), "%)"]
  }

  function RenderLine(l: ReportLine, money: real -> string, pct: real -> string): string {
    Concat(LineFields(l, money, pct)) + "\n"
  }

  function RenderLines(lines: seq<ReportLine>, money: real -> string, pct: real -> string): string {
    if lines == [] then "" else RenderLine(lines[0], money, pct) + RenderLines(lines[1..], money, pct)
  }

  /** `check_budget_status()`. */
  function CheckBudgetStatus(q: ReportQuery, money: real -> string, pct: real -> string): (report: string)
    ensures q.ReportError? ==> report == BudgetErrorPrefix + q.message
    ensures q == ReportRows([]) ==> report == NoBudgets
    ensures q.ReportRows? && q.rows != [] ==>
              report == ReportHeader + RenderLines(ReportLines(q.rows), money, pct)
  {
    match q
    case ReportError(e) => BudgetErrorPrefix + e
    case ReportRows(rows) =>
      if rows == [] then NoBudgets else ReportHeader + RenderLines(ReportLines(rows), money, pct)
  }

  /** No field of a line, as rendered, breaks the line. */
  predicate SingleLineFields(lines: seq<ReportLine>, money: real -> string, pct: real -> string) {
    forall i :: 0 <= i < |lines| ==>
      && '\n' !in lines[i].email && '\n' !in lines[i].category
      && '\n' !in money(lines[i].spent) && '\n' !in money(lines[i].limit)
      && '\n' !in pct(lines[i].percent)
  }

  lemma {:induction false} RenderLinesCount(lines: seq<ReportLine>, money: real -> string, pct: real -> string)
    requires SingleLineFields(lines, money, pct)
    ensures CountChar('\n', RenderLines(lines, money, pct)) == |lines|
  {
    if lines != [] {
      var fields := LineFields(lines[0], money, pct);
      ConcatLacks('\n', fields);
      CountCharAbsent('\n', Concat(fields));
      CountCharAppend('\n', Concat(fields), "\n");
      assert SingleLineFields(lines[1..], money, pct) by {
        forall i | 0 <= i < |lines| - 1 ensures lines[1..][i] == lines[i + 1] { }
      }
      RenderLinesCount(lines[1..], money, pct);
      CountCharAppend('\n', RenderLine(lines[0], money, pct), RenderLines(lines[1..], money, pct));
    }
  }

  /** A non-empty report is the header followed by exactly one line per
      returned tuple: it holds one more newline than there are tuples. */
  lemma ReportHasOneLinePerRow(rows: seq<BudgetRow>, money: real -> string, pct: real -> string)
    requires rows != []
    requires forall i :: 0 <= i < |rows| ==> '\n' !in rows[i].email && '\n' !in rows[i].category
    requires forall x: real :: '\n' !in money(x) && '\n' !in pct(x)
    ensures var report := CheckBudgetStatus(ReportRows(rows), money, pct);
            StartsWith(report, ReportHeader) && CountChar('\n', report) == |rows| + 1
  {
    var lines := ReportLines(rows);
    assert SingleLineFields(lines, money, pct) by {
      forall i | 0 <= i < |lines|
        ensures '\n' !in lines[i].email && '\n' !in lines[i].category
        ensures '\n' !in money(lines[i].spent) && '\n' !in money(lines[i].limit)
        ensures '\n' !in pct(lines[i].percent)
      {
        assert lines[i].email == rows[i].email && lines[i].category == rows[i].category;
        assert '\n' !in money(lines[i].spent) && '\n' !in money(lines[i].limit);
        assert '\n' !in pct(lines[i].percent);
      }
    }
    RenderLinesCount(lines, money, pct);
    var body := RenderLines(lines, money, pct);
    CountCharAppend('\n', ReportHeader, body);
    CountCharAbsent('\n', ReportTitle);
    CountCharAppend('\n', ReportTitle, "\n");
    var report := CheckBudgetStatus(ReportRows(rows), money, pct);
    assert report == ReportHeader + body;
    assert report[..|ReportHeader|] == ReportHeader;
  }

  // ---------------------------------------------------------------------
  // search_vector_db
  // ---------------------------------------------------------------------

  /** The request sent to the collection. It has no metadata filter, so it
      is not restricted to any user. */
  datatype VectorQuery = VectorQuery(queryTexts: seq<string>, nResults: int)

  datatype QueryOutcome = QueryResult(documents: seq<seq<string>>) | QueryError(message: string)

  datatype SearchAnswer = Snippets(texts: seq<string>) | SearchMessage(text: string)

  const DefaultResults: int := 5
  const VectorErrorPrefix: string := "Vector Store Error: "

  /** `search_vector_db(query, n_results)`: the first result list, or the
      error text of whatever raised, including the `IndexError` of an
      empty result. */
  function SearchVectorDb(query: string, nResults: int, collection: VectorQuery -> QueryOutcome)
    : (r: (VectorQuery, SearchAnswer))
    ensures r.0 == VectorQuery([query], nResults)
    ensures r.1.Snippets? <==> collection(r.0).QueryResult? && collection(r.0).documents != []
    ensures r.1.Snippets? ==> r.1.texts == collection(r.0).documents[0]
    ensures collection(r.0).QueryError? ==> r.1 == SearchMessage(VectorErrorPrefix + collection(r.0).message)
    ensures collection(r.0) == QueryResult([]) ==>
              r.1 == SearchMessage(VectorErrorPrefix + "list index out of range")
  {
    var request := VectorQuery([query], nResults);
    var answer :=
      match collection(request)
      case QueryError(e) => SearchMessage(VectorErrorPrefix + e)
      case QueryResult(docs) =>
        if docs == [] then SearchMessage(VectorErrorPrefix + "list index out of range")
        else Snippets(docs[0]);
    (request, answer)
  }

  /** The call with the signature's default `n_results`. */
  function SearchWithDefaultCount(query: string, collection: VectorQuery -> QueryOutcome)
    : (r: (VectorQuery, SearchAnswer))
    ensures r.0.nResults == 5 && r.0.queryTexts == [query]
  {
    SearchVectorDb(query, DefaultResults, collection)
  }

  /** Errors come back as values: the tool never raises, and every message
      it returns is recognisable by the error prefix, while results are
      passed through exactly as the collection ranked them. The request
      carries no filter, so two collections that answer it the same way
      give the same answer, whoever asks. */
  lemma SearchErrorsAreValues(query: string, nResults: int, c1: VectorQuery -> QueryOutcome,
                              c2: VectorQuery -> QueryOutcome)
    ensures var r := SearchVectorDb(query, nResults, c1);
            r.1.SearchMessage? ==> StartsWith(r.1.text, VectorErrorPrefix)
    ensures var r := SearchVectorDb(query, nResults, c1);
            c1(r.0) == c2(r.0) ==> SearchVectorDb(query, nResults, c2) == r
  {
    var r := SearchVectorDb(query, nResults, c1);
    if r.1.SearchMessage? {
      var rest := if c1(r.0).QueryError? then c1(r.0).message else "list index out of range";
      assert r.1.text == VectorErrorPrefix + rest;
      assert r.1.text[..|VectorErrorPrefix|] == VectorErrorPrefix;
    }
  }

  // ---------------------------------------------------------------------
  // get_db_schema
  // ---------------------------------------------------------------------

  const SchemaIndent: string := "\n    "

  /** The lines of the description, in order. */
  const SchemaLines: seq<string> := [
    "Table: transactions",
    "Columns:",
    "- date (Date)",
    "- merchant (String)",
    "- amount (Float)",
    "- currency (String)",
    "- category (String)"]

  /** `get_db_schema()`: a fixed description, not read from the database. */
  function DbSchema(): (s: string)
    ensures StartsWith(s, SchemaIndent + SchemaLines[0])
    ensures EndsWith(s, SchemaLines[|SchemaLines| - 1] + SchemaIndent)
  {
    JoinFramed(SchemaIndent, SchemaLines);
    SchemaIndent + Join(SchemaIndent, SchemaLines) + SchemaIndent
  }

  /** The description lists the table and each of its five data columns. */
  lemma SchemaListsColumns()
    ensures forall k :: 0 <= k < |SchemaLines| ==> Contains(DbSchema(), SchemaLines[k])
  {
    forall k | 0 <= k < |SchemaLines| ensures Contains(DbSchema(), SchemaLines[k]) {
      JoinContainsPart(SchemaIndent, SchemaLines, k);
      ContainsInContext(SchemaIndent, Join(SchemaIndent, SchemaLines), SchemaIndent, SchemaLines[k]);
    }
  }

  /** The description names neither an owner column nor the document link,
      although the prompt asks the model to filter by `user_id`. */
  lemma SchemaOmitsOwnerColumns()
    ensures !Contains(DbSchema(), "user_id")
    ensures !Contains(DbSchema(), "document_id")
  {
    assert forall k :: 0 <= k < |SchemaLines| ==> '_' !in SchemaLines[k];
    JoinLacks('_', SchemaIndent, SchemaLines);
    MissingCharExcludes(DbSchema(), "user_id", '_');
    MissingCharExcludes(DbSchema(), "document_id", '_');
  }
}
