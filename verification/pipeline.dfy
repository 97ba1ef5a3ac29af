/** The background worker `process_document_task`: it records a document
    as `processing`, turns the extracted transaction candidates into
    relational rows, stages one vector record per candidate and ends with
    exactly one terminal status.

    Text extraction and the language-model structuring call are foreign
    code; their combined output, the candidate list, is an input. The
    vector store is reduced to the two calls that can raise. */
module Pipeline {
  import opened Common
  import opened Dates
  import opened Records
  import Ingestion

  /** One transaction as the structuring step returns it. */
  datatype Candidate = Candidate(
    date: string,
    merchant: string,
    amount: real,
    currency: string,
    category: Option<string>)

  /** Metadata stored beside each vector record. It names the document but
      not the user. */
  datatype Metadata = Metadata(
    merchant: string,
    category: string,
    amount: real,
    date: string,
    docId: nat)

  /** The three parallel lists handed to `collection.add`. */
  datatype VectorBatch = VectorBatch(ids: seq<string>, documents: seq<string>, metadatas: seq<Metadata>)

  /** How the vector store behaves in this run: whether obtaining the
      collection raises, and whether `add` raises. */
  datatype VectorStore = VectorStore(openError: Option<string>, addError: Option<string>)

  /** The externally visible actions of one run, in order. */
  datatype Step =
    | CommitDocument(status: Status)
    | ExtractText
    | StructureText
    | AddRow(index: nat)
    | OpenCollection
    | AddVectors(count: nat)
    | CommitStatus(status: Status)

  datatype Run = Run(
    document: Document,
    steps: seq<Step>,
    committedRows: seq<TxRow>,
    written: seq<VectorBatch>)

  // ---------------------------------------------------------------------
  // Rows
  // ---------------------------------------------------------------------

  /** The row date: the parsed `%Y-%m-%d` date, or `today` when parsing
      raises `ValueError`. */
  function TransactionDate(raw: string, today: int): (d: int)
    ensures ParseIso(raw).None? ==> d == today
    ensures ParseIso(raw).Some? ==>
              var p := ParseIso(raw).value;
              d >= 1 && DaysBeforeYear(p.year) < d <= DaysBeforeYear(p.year + 1)
  {
    match ParseIso(raw)
    case Some(d) => Ordinal(d)
    case None => today
  }

  function BuildRow(docId: nat, today: int, c: Candidate): TxRow {
    TxRow(docId, TransactionDate(c.date, today), c.merchant, c.amount, c.currency, c.category)
  }

  /** One row per candidate, in order, none dropped; every row belongs to
      the new document and keeps the candidate's fields. */
  function BuildRows(docId: nat, today: int, cands: seq<Candidate>): (rows: seq<TxRow>)
    ensures |rows| == |cands|
    ensures forall i :: 0 <= i < |cands| ==>
              && rows[i].documentId == docId
              && rows[i].date == TransactionDate(cands[i].date, today)
              && rows[i].merchant == cands[i].merchant && rows[i].amount == cands[i].amount
              && rows[i].currency == cands[i].currency && rows[i].category == cands[i].category
  {
    seq(|cands|, i requires 0 <= i < |cands| => BuildRow(docId, today, cands[i]))
  }

  /** A well-formed ISO date keeps its own day. */
  lemma IsoDateKept(d: Date, today: int)
    requires Valid(d)
    ensures TransactionDate(FormatIso(d), today) == Ordinal(d)
  {
    ParseFormatRoundTrip(d);
  }

  /** A date text without the `-` separators is not rejected: the row is
      dated today. */
  lemma DateWithoutDashFallsBack(raw: string, today: int)
    requires '-' !in raw
    ensures TransactionDate(raw, today) == today
  {
    if |raw| >= 5 {
      assert raw[4] in raw;
    }
  }

  // ---------------------------------------------------------------------
  // Vector staging
  // ---------------------------------------------------------------------

  /** `f"{doc_id}_{i}"`. */
  function VectorId(docId: nat, i: nat): string {
    NatToString(docId) + "_" + NatToString(i)
  }

  /** Splits a vector id at its first `_` and reads both halves as numbers. */
  function ParseVectorId(id: string): Option<(nat, nat)> {
    match FirstIndex(id, '_')
    case None => None
    case Some(k) =>
      var a := id[..k];
      var b := id[k + 1..];
      if a != [] && b != [] && AllDigits(a) && AllDigits(b)
      then Some((DigitsValue(a), DigitsValue(b)))
      else None
  }

  /** Every vector id names its document and its position. */
  lemma VectorIdRoundTrip(docId: nat, i: nat)
    ensures ParseVectorId(VectorId(docId, i)) == Some((docId, i))
  {
    var a := NatToString(docId);
    var b := NatToString(i);
    var id := VectorId(docId, i);
    assert id[|a|] == '_';
    assert '_' !in a by {
      forall k | 0 <= k < |a| ensures a[k] != '_' { assert IsDigit(a[k]); }
    }
    assert FirstIndex(id, '_') == Some(|a|) by {
      var r := FirstIndex(id, '_');
      assert r.Some?;
      assert forall k :: 0 <= k < |a| ==> id[k] == a[k];
    }
    assert id[..|a|] == a;
    assert id[|a| + 1..] == b;
    NatToStringRoundTrip(docId);
    NatToStringRoundTrip(i);
  }

  lemma VectorIdInjective(d1: nat, i1: nat, d2: nat, i2: nat)
    ensures VectorId(d1, i1) == VectorId(d2, i2) ==> d1 == d2 && i1 == i2
  {
    VectorIdRoundTrip(d1, i1);
    VectorIdRoundTrip(d2, i2);
  }

  /** Python's `str()` of an optional category. */
  function CategoryText(category: Option<string>): string {
    match category
    case Some(c) => c
    case None => "None"
  }

  /** The searchable text; `show` renders a float as Python's `str` does. */
  function VectorText(c: Candidate, show: real -> string): (t: string)
    ensures StartsWith(t, c.merchant + " (")
    ensures EndsWith(t, show(c.amount) + " " + c.currency)
  {
    c.merchant + " (" + CategoryText(c.category) + ") on " + c.date
      + ". Amount: " + show(c.amount) + " " + c.currency
  }

  /** `tx.category or "Unknown"`: a missing or empty category is replaced. */
  function MetadataCategory(category: Option<string>): (r: string)
    ensures r != ""
    ensures category.None? || category.value == "" ==> r == "Unknown"
    ensures category.Some? && category.value != "" ==> r == category.value
  {
    if category.None? || category.value == "" then "Unknown" else category.value
  }

  function MetadataOf(docId: nat, c: Candidate): Metadata {
    Metadata(c.merchant, MetadataCategory(c.category), c.amount, c.date, docId)
  }

  /** The lists the worker stages: one entry per candidate in all three,
      the metadata keeping the raw date text rather than the parsed or
      fallback date. */
  function StageBatch(docId: nat, cands: seq<Candidate>, show: real -> string): (b: VectorBatch)
    ensures |b.ids| == |b.documents| == |b.metadatas| == |cands|
    ensures forall i :: 0 <= i < |cands| ==>
              && b.metadatas[i].date == cands[i].date
              && b.metadatas[i].docId == docId
              && b.metadatas[i].merchant == cands[i].merchant
              && b.metadatas[i].amount == cands[i].amount
              && b.metadatas[i].category == MetadataCategory(cands[i].category)
  {
    VectorBatch(
      seq(|cands|, i requires 0 <= i < |cands| => VectorId(docId, i)),
      seq(|cands|, i requires 0 <= i < |cands| => VectorText(cands[i], show)),
      seq(|cands|, i requires 0 <= i < |cands| => MetadataOf(docId, cands[i])))
  }

  /** The staging loop as the worker writes it: three lists grown together
      over `enumerate(transactions)`. */
  method StageVectors(docId: nat, cands: seq<Candidate>, show: real -> string)
    returns (ids: seq<string>, documents: seq<string>, metadatas: seq<Metadata>)
    ensures VectorBatch(ids, documents, metadatas) == StageBatch(docId, cands, show)
  {
    ids, documents, metadatas := [], [], [];
    var i := 0;
    while i < |cands|
      invariant 0 <= i <= |cands|
      invariant |ids| == |documents| == |metadatas| == i
      invariant forall k :: 0 <= k < i ==> ids[k] == VectorId(docId, k)
      invariant forall k :: 0 <= k < i ==> documents[k] == VectorText(cands[k], show)
      invariant forall k :: 0 <= k < i ==> metadatas[k] == MetadataOf(docId, cands[k])
    {
      var tx := cands[i];
      var id := NatToString(docId) + "_" + NatToString(i);
      var text := tx.merchant + " (" + CategoryText(tx.category) + ") on " + tx.date
                  + ". Amount: " + show(tx.amount) + " " + tx.currency;
      var meta := Metadata(tx.merchant, MetadataCategory(tx.category), tx.amount, tx.date, docId);
      assert id == VectorId(docId, i);
      assert text == VectorText(cands[i], show);
      assert meta == MetadataOf(docId, cands[i]);
      ids := ids + [id];
      documents := documents + [text];
      metadatas := metadatas + [meta];
      i := i + 1;
    }
    var b := StageBatch(docId, cands, show);
    assert ids == b.ids;
    assert documents == b.documents;
    assert metadatas == b.metadatas;
  }

  /** The staged ids are pairwise distinct, so a batch of `n` candidates
      names exactly `n` vector records. */
  lemma StagedIdsDistinct(docId: nat, cands: seq<Candidate>, show: real -> string)
    ensures var b := StageBatch(docId, cands, show);
            forall i, j :: 0 <= i < j < |b.ids| ==> b.ids[i] != b.ids[j]
  {
    var b := StageBatch(docId, cands, show);
    forall i, j | 0 <= i < j < |b.ids| ensures b.ids[i] != b.ids[j] {
      VectorIdInjective(docId, i, docId, j);
    }
  }

  /** Ids of two different documents never collide. */
  lemma IdsOfDistinctDocumentsDisjoint(d1: nat, d2: nat, i: nat, j: nat)
    requires d1 != d2
    ensures VectorId(d1, i) != VectorId(d2, j)
  {
    VectorIdInjective(d1, i, d2, j);
  }

  // ---------------------------------------------------------------------
  // The worker
  // ---------------------------------------------------------------------

  /** The status a single step commits, if any. */
  function StepStatus(step: Step): seq<Status> {
    match step
    case CommitDocument(s) => [s]
    case CommitStatus(s) => [s]
    case _ => []
  }

  /** The statuses committed by a sequence of steps, in order. */
  function Statuses(steps: seq<Step>): seq<Status> {
    if steps == [] then [] else StepStatus(steps[0]) + Statuses(steps[1..])
  }

  lemma {:induction false} StatusesAppend(a: seq<Step>, b: seq<Step>)
    ensures Statuses(a + b) == Statuses(a) + Statuses(b)
  {
    if a == [] {
      assert a + b == b;
    } else {
      assert (a + b)[0] == a[0];
      assert (a + b)[1..] == a[1..] + b;
      StatusesAppend(a[1..], b);
      assert Statuses(a + b) == StepStatus(a[0]) + (Statuses(a[1..]) + Statuses(b));
    }
  }

  function AddRowSteps(n: nat): (s: seq<Step>)
    ensures |s| == n
  {
    seq(n, i requires 0 <= i < n => AddRow(i))
  }

  lemma {:induction false} AddRowsCommitNothing(n: nat)
    ensures Statuses(AddRowSteps(n)) == []
  {
    if n > 0 {
      assert AddRowSteps(n) == AddRowSteps(n - 1) + [AddRow(n - 1)];
      StatusesAppend(AddRowSteps(n - 1), [AddRow(n - 1)]);
      AddRowsCommitNothing(n - 1);
    }
  }

  /** Each status in the sequence is strictly later in the lifecycle than
      the one before it. */
  predicate NeverRegresses(t: seq<Status>) {
    forall i, j :: 0 <= i < j < |t| ==> t[i].Rank() < t[j].Rank()
  }

  /** The steps every run takes before the vector store is touched:
      commit the processing document, extract, structure, add the rows. */
  function WorkerPrefix(n: nat): (p: seq<Step>)
    ensures |p| == n + 4
    ensures p[0] == CommitDocument(Processing) && p[1] == ExtractText && p[2] == StructureText
    ensures Statuses(p) == [Processing]
    ensures forall k :: 0 <= k < |p| ==> !p[k].AddVectors?
    ensures p[|p| - 1] == OpenCollection
  {
    var head := [CommitDocument(Processing), ExtractText, StructureText];
    var rows := AddRowSteps(n);
    PrefixStatuses(head, rows);
    head + rows + [OpenCollection]
  }

  lemma PrefixStatuses(head: seq<Step>, rows: seq<Step>)
    requires head == [CommitDocument(Processing), ExtractText, StructureText]
    requires rows == AddRowSteps(|rows|)
    ensures Statuses(head + rows + [OpenCollection]) == [Processing]
  {
    assert Statuses(head[2..]) == [] by { assert head[2..][1..] == []; }
    assert Statuses(head[1..]) == [] by { assert head[1..][1..] == head[2..]; }
    assert Statuses(head) == [Processing];
    assert Statuses([OpenCollection]) == [] by { assert [OpenCollection][1..] == []; }
    AddRowsCommitNothing(|rows|);
    StatusesAppend(head, rows);
    StatusesAppend(head + rows, [OpenCollection]);
  }

  /** The vector stage: the final status and the remaining steps. */
  function VectorStage(n: nat, store: VectorStore): (o: (Status, seq<Step>))
    ensures o.0.Terminal()
    ensures Statuses(o.1) == [o.0]
    ensures o.0 == Completed <==> store.openError.None? && (n == 0 || store.addError.None?)
    ensures AddVectors(n) in o.1 <==> n > 0 && store.openError.None?
  {
    if store.openError.Some? then (Failed, [CommitStatus(Failed)])
    else if n == 0 then (Completed, [CommitStatus(Completed)])
    else if store.addError.Some? then
      StatusesAppend([AddVectors(n)], [CommitStatus(Failed)]);
      (Failed, [AddVectors(n), CommitStatus(Failed)])
    else
      StatusesAppend([AddVectors(n)], [CommitStatus(Completed)]);
      (Completed, [AddVectors(n), CommitStatus(Completed)])
  }

  /** All steps of a run over `n` candidates, with its final status: the
      prefix followed by the vector stage. */
  function WorkerSteps(n: nat, store: VectorStore): (o: (Status, seq<Step>))
    ensures |o.1| >= 3
    ensures o.1[0] == CommitDocument(Processing) && o.1[1] == ExtractText && o.1[2] == StructureText
    ensures Statuses(o.1) == [Processing, o.0]
    ensures o.0.Terminal() && NeverRegresses(Statuses(o.1))
    ensures o.0 == Completed <==> store.openError.None? && (n == 0 || store.addError.None?)
    ensures AddVectors(n) in o.1 <==> n > 0 && store.openError.None?
    ensures OpenCollection in o.1
  {
    var prefix := WorkerPrefix(n);
    var (status, tail) := VectorStage(n, store);
    var steps := prefix + tail;
    StatusesAppend(prefix, tail);
    assert steps[0] == prefix[0] && steps[1] == prefix[1] && steps[2] == prefix[2];
    assert AddVectors(n) in steps <==> AddVectors(n) in tail by {
      if AddVectors(n) in steps {
        var k :| 0 <= k < |steps| && steps[k] == AddVectors(n);
        assert k >= |prefix| && tail[k - |prefix|] == steps[k];
      }
    }
    assert steps[|prefix| - 1] == OpenCollection;
    (status, steps)
  }

  /** The steps of a run whose structuring call raises: the handler marks
      the document failed before any row is added or the collection is
      looked up. */
  function StructuringFailedSteps(): (steps: seq<Step>)
    ensures |steps| == 4
    ensures steps[0] == CommitDocument(Processing) && steps[1] == ExtractText && steps[2] == StructureText
    ensures steps[3] == CommitStatus(Failed)
    ensures Statuses(steps) == [Processing, Failed]
  {
    var steps := [CommitDocument(Processing), ExtractText, StructureText, CommitStatus(Failed)];
    assert Statuses(steps[3..]) == [Failed] by { assert steps[3..][1..] == []; }
    assert Statuses(steps[2..]) == [Failed] by { assert steps[2..][1..] == steps[3..]; }
    assert Statuses(steps[1..]) == [Failed] by { assert steps[1..][1..] == steps[2..]; }
    steps
  }

  /** The run once structuring has produced `cands`: the rows, the vector
      stage and its terminal status. */
  function StructuredRun(doc: Document, today: int, cands: seq<Candidate>, store: VectorStore,
                         show: real -> string): (r: Run)
    ensures |r.steps| >= 3
    ensures r.steps[0] == CommitDocument(Processing)
    ensures r.steps[1] == ExtractText && r.steps[2] == StructureText
    ensures Statuses(r.steps) == [Processing, r.document.status]
    ensures r.document.status.Terminal() && NeverRegresses(Statuses(r.steps))
    ensures r.document.status == Completed <==> store.openError.None? && (cands == [] || store.addError.None?)
    ensures r.document == doc.(status := r.document.status)
    ensures r.committedRows == BuildRows(doc.id, today, cands)
    ensures OpenCollection in r.steps
    ensures AddVectors(|cands|) in r.steps <==> cands != [] && store.openError.None?
    ensures r.written != [] <==> cands != [] && r.document.status == Completed
    ensures r.written != [] ==> r.written == [StageBatch(doc.id, cands, show)]
  {
    var (status, steps) := WorkerSteps(|cands|, store);
    var written := if cands != [] && status == Completed then [StageBatch(doc.id, cands, show)] else [];
    Run(doc.(status := status), steps, BuildRows(doc.id, today, cands), written)
  }

  /** `process_document_task`. `docId` is the id the database assigns,
      `now` the upload timestamp, `today` the day number of `date.today()`
      and `show` Python's `str` on floats. `structured` is what
      `clean_data_with_llm` yields: the candidates, or the exception it
      raises while building its chain outside its own `try`; text
      extraction itself never raises. Commits themselves are assumed to
      succeed. */
  function ProcessDocumentTask(
    filePath: string, docId: nat, now: int, today: int,
    structured: Result<seq<Candidate>>, store: VectorStore, show: real -> string): (r: Run)
    // the document is committed as processing before extraction and structuring
    ensures |r.steps| >= 3
    ensures r.steps[0] == CommitDocument(Processing)
    ensures r.steps[1] == ExtractText && r.steps[2] == StructureText
    // exactly one terminal status, and the status never goes back
    ensures Statuses(r.steps) == [Processing, r.document.status]
    ensures r.document.status.Terminal() && NeverRegresses(Statuses(r.steps))
    ensures r.document.status == Completed <==>
              && structured.Ok?
              && store.openError.None?
              && (structured.value == [] || store.addError.None?)
    // the document record
    ensures r.document.id == docId && r.document.uploadDate == now
    ensures r.document.filename == Ingestion.Basename(filePath)
    ensures r.document.userId == None
    // a failing structuring call: no rows, no collection lookup, no vectors
    ensures structured.Raised? ==> r.committedRows == [] && r.written == [] && OpenCollection !in r.steps
    // otherwise the rows are committed on both terminal paths
    ensures structured.Ok? ==> r.committedRows == BuildRows(docId, today, structured.value)
    ensures structured.Ok? ==> OpenCollection in r.steps
    ensures structured.Ok? ==>
              (AddVectors(|structured.value|) in r.steps <==> structured.value != [] && store.openError.None?)
    // the vector store is written only with a non-empty batch, and only on success
    ensures r.written != [] <==> structured.Ok? && structured.value != [] && r.document.status == Completed
    ensures r.written != [] ==> r.written == [StageBatch(docId, structured.value, show)]
  {
    var doc := Document(docId, Ingestion.Basename(filePath), now, Failed, None);
    match structured
    case Raised(_) =>
      var steps := StructuringFailedSteps();
      assert OpenCollection !in steps;
      Run(doc, steps, [], [])
    case Ok(cands) => StructuredRun(doc, today, cands, store, show)
  }

  // ---------------------------------------------------------------------
  // Running the scheduled task
  // ---------------------------------------------------------------------

  /** A positional argument of the scheduled call. */
  datatype Arg = PathArg(path: string) | IdArg(id: nat)

  /** The arguments the endpoint schedules the worker with: the saved path
      and the user id. */
  function TaskArgs(t: Ingestion.Task): (args: seq<Arg>)
    ensures |args| == 2 && args[0] == PathArg(t.filePath)
  {
    [PathArg(t.filePath), IdArg(t.userId)]
  }

  const MissingPathError: string := "process_document_task() missing 1 required positional argument: 'file_path'"
  const NotAPathError: string := "expected str, bytes or os.PathLike object, not int"

  function ArityError(given: nat): string {
    "process_document_task() takes 1 positional argument but " + NatToString(given) + " were given"
  }

  /** The background runner's `await process_document_task(*args)`. The
      worker has the single parameter `file_path`: any other number of
      arguments raises `TypeError` before the body runs, and an integer in
      its place raises at `basename`, before the document exists. */
  function InvokeWorker(
    args: seq<Arg>, docId: nat, now: int, today: int,
    structured: Result<seq<Candidate>>, store: VectorStore, show: real -> string): (r: Result<Run>)
    ensures r.Ok? <==> |args| == 1 && args[0].PathArg?
    ensures r.Ok? ==> r.value.document.filename == Ingestion.Basename(args[0].path)
    ensures r.Ok? ==> r.value == ProcessDocumentTask(args[0].path, docId, now, today, structured, store, show)
    ensures args == [] ==> r == Raised(MissingPathError)
    ensures |args| > 1 ==> r == Raised(ArityError(|args|))
    ensures |args| == 1 && args[0].IdArg? ==> r == Raised(NotAPathError)
  {
    if args == [] then Raised(MissingPathError)
    else if |args| > 1 then Raised(ArityError(|args|))
    else match args[0]
      case IdArg(_) => Raised(NotAPathError)
      case PathArg(path) => Ok(ProcessDocumentTask(path, docId, now, today, structured, store, show))
  }

  /** What a run leaves in the stores: the document, its rows and the
      vector batches written. */
  datatype Effects = Effects(documents: seq<Document>, rows: seq<TxRow>, batches: seq<VectorBatch>)

  function EffectsOf(o: Result<Run>): (e: Effects)
    ensures o.Raised? ==> e == Effects([], [], [])
    ensures o.Ok? ==> e.documents == [o.value.document] && e.rows == o.value.committedRows
  {
    match o
    case Raised(_) => Effects([], [], [])
    case Ok(run) => Effects([run.document], run.committedRows, run.written)
  }

  /** As scheduled, the worker never runs: every task an accepted upload
      schedules raises the arity error, so no document, row or vector
      record is ever created from an upload. */
  lemma ScheduledWorkerNeverRuns(
    filename: string, userId: nat, saveError: Option<string>,
    docId: nat, now: int, today: int,
    structured: Result<seq<Candidate>>, store: VectorStore, show: real -> string)
    requires Ingestion.IngestDocument(filename, userId, saveError).response.Accepted?
    ensures var u := Ingestion.IngestDocument(filename, userId, saveError);
            && |u.scheduled| == 1
            && var o := InvokeWorker(TaskArgs(u.scheduled[0]), docId, now, today, structured, store, show);
               && o == Raised("process_document_task() takes 1 positional argument but 2 were given")
               && EffectsOf(o) == Effects([], [], [])
  {
    ArityErrorForTwo();
  }

  lemma ArityErrorForTwo()
    ensures ArityError(2) == "process_document_task() takes 1 positional argument but 2 were given"
  {
    assert NatToString(2) == "2";
  }
}
