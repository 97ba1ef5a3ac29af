/** The upload endpoint `ingest_document`: it checks the file name, saves
    the upload under the upload directory and schedules the background
    worker. Writing the file is I/O, so its outcome is a parameter. */
module Ingestion {
  import opened Common

  const UploadDir: string := "uploads"
  const PdfSuffix: string := ".pdf"
  const RejectDetail: string := "Only PDF files are supported"
  const AcceptMessage: string := "File uploaded successfully. Processing started."

  /** POSIX `os.path.join(a, b)`: an absolute `b` replaces `a`; otherwise a
      separator is inserted unless `a` is empty or already ends in one. */
  function JoinPath(a: string, b: string): (p: string)
    ensures EndsWith(p, b)
    ensures StartsWith(b, "/") ==> p == b
    ensures !StartsWith(b, "/") && a != [] && !EndsWith(a, "/") ==> p == a + "/" + b
  {
    if StartsWith(b, "/") then b
    else if a == [] || EndsWith(a, "/") then a + b
    else a + "/" + b
  }

  /** POSIX `os.path.basename(p)`: the text after the last separator. */
  function Basename(p: string): (r: string)
    ensures '/' !in r
    ensures EndsWith(p, r)
    ensures r == p || p[|p| - |r| - 1] == '/'
  {
    if p == [] then []
    else if p[|p| - 1] == '/' then []
    else Basename(p[..|p| - 1]) + [p[|p| - 1]]
  }

  /** The background job `process_document_task` is scheduled with. The
      endpoint passes the user id as a second argument, although the
      worker's signature takes only the path. */
  datatype Task = ProcessDocument(filePath: string, userId: nat)

  datatype Response =
    | Accepted(message: string, filename: string)
    | HttpError(status: nat, detail: string)

  /** What one call did: its response, the paths it tried to write and the
      jobs it scheduled, in order. */
  datatype Upload = Upload(response: Response, writes: seq<string>, scheduled: seq<Task>)

  /** `ingest_document`. `saveError` is `Some(e)` when opening or copying
      the file raises `e`. */
  function IngestDocument(filename: string, userId: nat, saveError: Option<string>): (r: Upload)
    ensures r.response == HttpError(400, RejectDetail) <==> !EndsWith(filename, PdfSuffix)
    ensures !EndsWith(filename, PdfSuffix) ==> r.writes == [] && r.scheduled == []
    ensures EndsWith(filename, PdfSuffix) ==> r.writes == [JoinPath(UploadDir, filename)]
    ensures r.scheduled != [] <==> r.response.Accepted?
    ensures r.response.Accepted? <==> EndsWith(filename, PdfSuffix) && saveError.None?
    ensures r.response.Accepted? ==>
              && r.response.filename == filename
              && r.scheduled == [ProcessDocument(JoinPath(UploadDir, filename), userId)]
    ensures EndsWith(filename, PdfSuffix) && saveError.Some? ==>
              r.response == HttpError(500, "Could not save file: " + saveError.value)
  {
    if !EndsWith(filename, PdfSuffix) then
      Upload(HttpError(400, RejectDetail), [], [])
    else
      var path := JoinPath(UploadDir, filename);
      match saveError
      case Some(e) => Upload(HttpError(500, "Could not save file: " + e), [path], [])
      case None => Upload(Accepted(AcceptMessage, filename), [path], [ProcessDocument(path, userId)])
  }

  /** The saved path's text starts with the upload directory exactly when
      the name is relative; an absolute name replaces the directory. This
      is a fact about the text only: nothing removes `..` components, so a
      relative name can still lead outside the directory (see
      `ParentSegmentEscapes`). */
  lemma UploadPathConfinement(filename: string)
    ensures StartsWith(JoinPath(UploadDir, filename), UploadDir + "/") <==> !StartsWith(filename, "/")
  {
    var p := JoinPath(UploadDir, filename);
    if !StartsWith(filename, "/") {
      assert !EndsWith(UploadDir, "/");
      assert p[..8] == UploadDir + "/";
    } else {
      assert p[0] == '/' && (UploadDir + "/")[0] == 'u';
    }
  }

  /** A relative name that climbs with `..` keeps the `uploads/` prefix,
      so it passes the prefix test, yet the path it names is `x.pdf` in the
      parent of the upload directory: the endpoint writes outside it. */
  lemma ParentSegmentEscapes()
    ensures var p := JoinPath(UploadDir, "../x.pdf");
            && p == "uploads/../x.pdf"
            && StartsWith(p, UploadDir + "/")
            && !StartsWith("../x.pdf", "/")
            && p[|UploadDir + "/"|..|UploadDir + "/"| + 3] == "../"
  {
    var p := JoinPath(UploadDir, "../x.pdf");
    assert !EndsWith(UploadDir, "/");
    assert p == "uploads/../x.pdf";
  }

  /** The worker derives the document name from the saved path; for a name
      without separators it is the uploaded name. */
  lemma WorkerSeesUploadedName(filename: string)
    requires '/' !in filename && filename != []
    ensures Basename(JoinPath(UploadDir, filename)) == filename
  {
    var p := JoinPath(UploadDir, filename);
    assert !StartsWith(filename, "/") by { assert filename[0] in filename; }
    assert !EndsWith(UploadDir, "/");
    var b := Basename(p);
    assert p == UploadDir + "/" + filename;
    assert b == p[|p| - |b|..] == filename;
  }
}
