/**
 * The rest of `GET` in the tips route: resolving the scheduled downloads into
 * message parts, checking the generator's reply, and the response and file
 * clean-up on every exit path.
 *
 * Everything outside the process is an input: the signed-in user, the two
 * table queries, the storage download and the file upload of each scheduled
 * job, the generator's reply, and `JSON.parse`.
 */
module GenerateTips {
  import opened Wrappers
  import opened Js
  import opened Base64
  import opened ReportPrompt

  /** What storage and the upload service answer for one scheduled job. */
  datatype Outcome = Outcome(download: Option<seq<Byte>>, upload: Option<string>)

  /** `${file.mime_type}` in a template: the text, or "null" for a missing type. */
  function MimeText(f: FileRecord): string
  {
    match f.mimeType
    case Some(m) => m
    case None => "null"
  }

  /**
   * The part a job's callback yields, or None where it returns null: an image
   * whose download failed, or a PDF whose download or upload failed.
   */
  function Resolve(job: Job, o: Outcome): (p: Option<Part>)
    ensures p.Some? <==> o.download.Some? && (job.PdfJob? ==> o.upload.Some?)
    ensures p.Some? && job.ImageJob? ==> p.value.ImagePart? && p.value.detail == "low"
    ensures p.Some? && job.PdfJob? ==> p.value == FilePart(o.upload.value)
  {
    match job
    case ImageJob(f) =>
      if o.download.Some? then Some(ImagePart(DataUrl(MimeText(f), Encode(o.download.value)), "low")) else None
    case PdfJob(_) =>
      if o.download.Some? && o.upload.Some? then Some(FilePart(o.upload.value)) else None
  }

  /** The upload id a job records: only a PDF whose upload succeeded. */
  function RecordedId(job: Job, o: Outcome): seq<string>
  {
    if job.PdfJob? && o.download.Some? && o.upload.Some? then [o.upload.value] else []
  }

  /** The resolved parts with the nulls filtered out, in scheduling order. */
  function ResolvedParts(jobs: seq<Job>, storage: Job -> Outcome): seq<Part>
  {
    if jobs == [] then []
    else
      var last := jobs[|jobs| - 1];
      ResolvedParts(jobs[..|jobs| - 1], storage)
      + (match Resolve(last, storage(last)) case Some(p) => [p] case None => [])
  }

  /** The ids pushed to the list of temporary uploads. */
  function UploadedIds(jobs: seq<Job>, storage: Job -> Outcome): seq<string>
  {
    if jobs == [] then []
    else
      var last := jobs[|jobs| - 1];
      UploadedIds(jobs[..|jobs| - 1], storage) + RecordedId(last, storage(last))
  }

  /** The ids of the file parts, in order. */
  function FileIds(parts: seq<Part>): seq<string>
  {
    if parts == [] then []
    else FileIds(parts[..|parts| - 1]) + (if parts[|parts| - 1].FilePart? then [parts[|parts| - 1].fileId] else [])
  }

  /**
   * One download callback: an image that downloaded becomes an inline part
   * with its bytes base64-encoded; a PDF that downloaded and uploaded becomes
   * a file reference and records its id; anything else yields null.
   */
  method ResolveJob(job: Job, outcome: Outcome) returns (part: Option<Part>, id: seq<string>)
    ensures part == Resolve(job, outcome)
    ensures id == RecordedId(job, outcome)
  {
    part, id := None, [];
    match job {
      case ImageJob(f) =>
        if outcome.download.Some? {
          var bytes := outcome.download.value;
          var buffer := new Byte[|bytes|](k requires 0 <= k < |bytes| => bytes[k]);
          var base64 := ArrayBufferToBase64(buffer);
          assert buffer[..] == bytes;
          part := Some(ImagePart(DataUrl(MimeText(f), base64), "low"));
        }
      case PdfJob(_) =>
        if outcome.download.Some? && outcome.upload.Some? {
          id := [outcome.upload.value];
          part := Some(FilePart(outcome.upload.value));
        }
    }
  }

  /**
   * The download callbacks, awaited together: each job yields a part or null,
   * and the non-null parts are kept in scheduling order. A PDF's id is
   * recorded when its upload succeeds.
   */
  method ResolveJobs(jobs: seq<Job>, storage: Job -> Outcome) returns (parts: seq<Part>, ids: seq<string>)
    ensures parts == ResolvedParts(jobs, storage)
    ensures ids == UploadedIds(jobs, storage)
  {
    parts, ids := [], [];
    var i := 0;
    while i < |jobs|
      invariant 0 <= i <= |jobs|
      invariant parts == ResolvedParts(jobs[..i], storage)
      invariant ids == UploadedIds(jobs[..i], storage)
    {
      var part, id := ResolveJob(jobs[i], storage(jobs[i]));
      if part.Some? {
        parts := parts + [part.value];
      }
      ids := ids + id;
      assert jobs[..i + 1][..i] == jobs[..i];
      i := i + 1;
    }
    assert jobs[..i] == jobs;
  }

  /** Resolving a run of jobs then another resolves both, in order. */
  lemma {:induction false} ResolvedPartsAppend(a: seq<Job>, b: seq<Job>, storage: Job -> Outcome)
    ensures ResolvedParts(a + b, storage) == ResolvedParts(a, storage) + ResolvedParts(b, storage)
  {
    if b == [] {
      assert a + b == a;
    } else {
      var b' := b[..|b| - 1];
      assert (a + b)[..|a + b| - 1] == a + b';
      ResolvedPartsAppend(a, b', storage);
    }
  }

  /** The number of jobs whose callback yields null. */
  function FailedJobs(jobs: seq<Job>, storage: Job -> Outcome): (n: nat)
    ensures n <= |jobs|
    ensures n == 0 <==> forall k :: 0 <= k < |jobs| ==> Resolve(jobs[k], storage(jobs[k])).Some?
  {
    if jobs == [] then 0
    else
      var init := jobs[..|jobs| - 1];
      var last := jobs[|jobs| - 1];
      assert forall k :: 0 <= k < |init| ==> init[k] == jobs[k];
      FailedJobs(init, storage) + (if Resolve(last, storage(last)).None? then 1 else 0)
  }

  /**
   * `filter(Boolean)` drops exactly the nulls: N jobs of which M fail leave
   * N - M parts, at most one per job, and one per job when nothing fails.
   */
  lemma {:induction false} ResolvedPartsCount(jobs: seq<Job>, storage: Job -> Outcome)
    ensures |ResolvedParts(jobs, storage)| == |jobs| - FailedJobs(jobs, storage)
    ensures |ResolvedParts(jobs, storage)| <= |jobs|
    ensures (forall k :: 0 <= k < |jobs| ==> Resolve(jobs[k], storage(jobs[k])).Some?)
      ==> |ResolvedParts(jobs, storage)| == |jobs|
  {
    if jobs != [] {
      var init := jobs[..|jobs| - 1];
      ResolvedPartsCount(init, storage);
    }
  }

  /** The recorded upload ids are exactly the ids of the file parts, in the same order. */
  lemma {:induction false} FileIdsAreUploads(jobs: seq<Job>, storage: Job -> Outcome)
    ensures FileIds(ResolvedParts(jobs, storage)) == UploadedIds(jobs, storage)
  {
    if jobs != [] {
      var init := jobs[..|jobs| - 1];
      var last := jobs[|jobs| - 1];
      FileIdsAreUploads(init, storage);
      var extra := match Resolve(last, storage(last)) case Some(p) => [p] case None => [];
      FileIdsAppend(ResolvedParts(init, storage), extra);
      assert extra != [] ==> extra[..0] == [];
    }
  }

  lemma {:induction false} FileIdsAppend(a: seq<Part>, b: seq<Part>)
    ensures FileIds(a + b) == FileIds(a) + FileIds(b)
  {
    if b == [] {
      assert a + b == a;
    } else {
      var b' := b[..|b| - 1];
      assert (a + b)[..|a + b| - 1] == a + b';
      FileIdsAppend(a, b');
    }
  }

  /** An id is recorded only for a PDF whose download and upload both succeeded, and it is that upload's id. */
  lemma {:induction false} UploadedIdsComeFromUploads(jobs: seq<Job>, storage: Job -> Outcome, id: string)
    requires id in UploadedIds(jobs, storage)
    ensures exists k :: (0 <= k < |jobs| && jobs[k].PdfJob? && storage(jobs[k]).download.Some?
      && storage(jobs[k]).upload == Some(id))
  {
    var init := jobs[..|jobs| - 1];
    var last := jobs[|jobs| - 1];
    if id in UploadedIds(init, storage) {
      UploadedIdsComeFromUploads(init, storage, id);
      var k :| 0 <= k < |init| && init[k].PdfJob? && storage(init[k]).download.Some? && storage(init[k]).upload == Some(id);
      assert jobs[k] == init[k];
    } else {
      assert jobs[|jobs| - 1] == last;
    }
  }

  /**
   * An inlined image carries exactly the downloaded bytes: reading its URL back
   * as a `data:` URL gives the file's media type and those bytes.
   */
  lemma ImagePartCarriesBytes(f: FileRecord, o: Outcome)
    requires Resolve(ImageJob(f), o).Some?
    requires ',' !in MimeText(f)
    ensures ParseDataUrl(Resolve(ImageJob(f), o).value.url) == Some((MimeText(f), o.download.value))
  {
    DataUrlRoundTrip(MimeText(f), o.download.value);
  }

  // ------------------------------------------------------------ the reply

  const EmptyReply: string := "OpenAI response was empty."
  const BadStructure: string := "OpenAI response did not match expected structure."
  const DefaultError: string := "Failed to generate tips."

  /** The four keys the reply must hold. */
  const TipKeys: seq<string> := ["dietTips", "habitTips", "supplementProposals", "shoppingList"]

  /** A parsed reply of the expected structure: an object whose four keys all hold truthy values. */
  predicate HasTips(v: JsValue)
  {
    v.Object? && forall k :: k in TipKeys ==> k in v.fields && Truthy(v.fields[k])
  }

  /** The TypeError a property read on null or undefined throws. */
  function ReadError(v: JsValue, key: string): string
  {
    "Cannot read properties of " + (if v.Null? then "null" else "undefined") + " (reading '" + key + "')"
  }

  /**
   * The check on the generator's reply (its first choice's message content,
   * if any): it must be non-empty text, parse as JSON and hold the four keys.
   * The parsed value is returned unchanged.
   */
  function CheckReply(content: Option<string>, parse: string -> Result<JsValue>): (r: Result<JsValue>)
    ensures r.Ok? <==> content.Some? && content.value != "" && parse(content.value).Ok? && HasTips(parse(content.value).value)
    ensures r.Ok? ==> r.value == parse(content.value).value
    ensures (content.None? || content.value == "") ==> r == Err(EmptyReply)
    ensures content.Some? && content.value != "" && parse(content.value).Err? ==> r == parse(content.value)
    ensures content.Some? && content.value != "" && parse(content.value).Ok? ==>
      var v := parse(content.value).value;
      && (v.Null? || v.Undefined? ==> r == Err(ReadError(v, "dietTips")))
      && (!v.Null? && !v.Undefined? && !HasTips(v) ==> r == Err(BadStructure))
  {
    if content.None? || content.value == "" then Err(EmptyReply)
    else
      match parse(content.value)
      case Err(m) => Err(m)
      case Ok(v) =>
        if v.Null? || v.Undefined? then Err(ReadError(v, "dietTips"))
        else if !Truthy(Js.Get(v, "dietTips")) || !Truthy(Js.Get(v, "habitTips"))
          || !Truthy(Js.Get(v, "supplementProposals")) || !Truthy(Js.Get(v, "shoppingList"))
        then Err(BadStructure)
        else Ok(v)
  }

  // ------------------------------------------------------------ the route

  /** Everything `GET` receives from outside the process. */
  datatype World = World(
    user: Result<Option<string>>,
    notesQuery: Result<Option<seq<NoteRecord>>>,
    filesQuery: Result<Option<seq<FileRecord>>>,
    now: string,
    storage: Job -> Outcome,
    completion: Result<Option<string>>,
    parse: string -> Result<JsValue>,
    deleted: (nat, string) -> bool)

  datatype Response = Response(status: nat, body: JsValue)

  /** `userError || !user` is false. */
  predicate SignedIn(user: Result<Option<string>>)
  {
    user.Ok? && user.value.Some?
  }

  /** `result.data || []` */
  function OrEmpty<T>(data: Option<seq<T>>): seq<T>
  {
    match data
    case Some(rows) => rows
    case None => []
  }

  function ErrorBody(message: string): JsValue
  {
    Object(map["error" := Str(message)])
  }

  const Unauthorized: Response := Response(401, ErrorBody("Unauthorized"))

  /** The 500 response of the catch block: the error's message, or a default for an empty one. */
  function ErrorResponse(message: string): (r: Response)
    ensures r.status == 500 && r.body.Object? && r.body.fields.Keys == {"error"}
    ensures r.body.fields["error"].Str? && r.body.fields["error"].s != ""
  {
    Response(500, ErrorBody(if message == "" then DefaultError else message))
  }

  /**
   * What the `try` block of `GET` ends with: a response it returns or the
   * message of the error it throws, the user message sent to the generator
   * (once it is sent) and the list of temporary uploads.
   */
  datatype Attempt = Attempt(result: Result<Response>, prompt: Option<seq<Part>>, uploaded: seq<string>)

  function TryGet(w: World): Attempt
  {
    if !SignedIn(w.user) then Attempt(Ok(Unauthorized), None, [])
    else if w.notesQuery.Err? then Attempt(Err("Notes fetch error: " + w.notesQuery.message), None, [])
    else if w.filesQuery.Err? then Attempt(Err("Files fetch error: " + w.filesQuery.message), None, [])
    else
      var notes := OrEmpty(w.notesQuery.value);
      var files := OrEmpty(w.filesQuery.value);
      var jobs := PlannedJobs(w.now, notes, files);
      var prompt := TextParts(w.now, notes, files) + ResolvedParts(jobs, w.storage);
      var uploaded := UploadedIds(jobs, w.storage);
      match w.completion
      case Err(m) => Attempt(Err(m), Some(prompt), uploaded)
      case Ok(content) =>
        match CheckReply(content, w.parse)
        case Err(m) => Attempt(Err(m), Some(prompt), uploaded)
        case Ok(tips) => Attempt(Ok(Response(200, tips)), Some(prompt), uploaded)
  }

  /** The response `GET` sends: the one returned, or the catch block's. */
  function FinalResponse(a: Attempt): Response
  {
    match a.result
    case Ok(r) => r
    case Err(m) => ErrorResponse(m)
  }

  /** The deletion requests: one round in `finally`, and one more in `catch` after an error. */
  function Deletions(a: Attempt): seq<string>
  {
    if a.result.Err? then a.uploaded + a.uploaded else a.uploaded
  }

  /** The ids whose deletion failed, in order: each one is logged and none is thrown. */
  function FailedDeletions(ids: seq<string>, deleted: string -> bool): (failed: seq<string>)
    ensures |failed| <= |ids|
    ensures forall id :: id in failed <==> id in ids && !deleted(id)
  {
    if ids == [] then []
    else
      var last := ids[|ids| - 1];
      FailedDeletions(ids[..|ids| - 1], deleted) + (if deleted(last) then [] else [last])
  }

  /**
   * `cleanupOpenAIFiles`: one deletion request per id, each in its own
   * `try`, so a failed deletion is logged and the others are still tried.
   * `deleted` is the service's answer to each request.
   */
  method CleanupOpenAIFiles(fileIds: seq<string>, deleted: string -> bool) returns (requests: seq<string>, failed: seq<string>)
    ensures requests == fileIds
    ensures failed == FailedDeletions(fileIds, deleted)
  {
    requests, failed := [], [];
    var i := 0;
    while i < |fileIds|
      invariant 0 <= i <= |fileIds|
      invariant requests == fileIds[..i]
      invariant failed == FailedDeletions(fileIds[..i], deleted)
    {
      requests := requests + [fileIds[i]];
      if !deleted(fileIds[i]) {
        failed := failed + [fileIds[i]];
      }
      assert fileIds[..i + 1][..i] == fileIds[..i];
      i := i + 1;
    }
    assert fileIds[..i] == fileIds;
  }

  /**
   * The deletions logged as failed: round 0 is the first call to
   * `cleanupOpenAIFiles` (in `catch` after an error, otherwise in `finally`),
   * round 1 the `finally` call after an error.
   */
  function DeletionFailures(a: Attempt, deleted: (nat, string) -> bool): seq<string>
  {
    var first := FailedDeletions(a.uploaded, id => deleted(0, id));
    if a.result.Err? then first + FailedDeletions(a.uploaded, id => deleted(1, id)) else first
  }

  /** The `try` block of `GET`. */
  method TryBlock(w: World) returns (a: Attempt)
    ensures a == TryGet(w)
  {
    if !SignedIn(w.user) {
      return Attempt(Ok(Unauthorized), None, []);
    }
    if w.notesQuery.Err? {
      return Attempt(Err("Notes fetch error: " + w.notesQuery.message), None, []);
    }
    if w.filesQuery.Err? {
      return Attempt(Err("Files fetch error: " + w.filesQuery.message), None, []);
    }
    var notes := OrEmpty(w.notesQuery.value);
    var files := OrEmpty(w.filesQuery.value);
    var userPromptParts, jobs, _ := AssembleUserContent(w.now, notes, files);
    var fetchedFileParts, uploadedOpenAIFileIds := ResolveJobs(jobs, w.storage);
    userPromptParts := userPromptParts + fetchedFileParts;
    match w.completion {
      case Err(m) =>
        a := Attempt(Err(m), Some(userPromptParts), uploadedOpenAIFileIds);
      case Ok(content) =>
        var checked := CheckReply(content, w.parse);
        match checked {
          case Err(m) =>
            a := Attempt(Err(m), Some(userPromptParts), uploadedOpenAIFileIds);
          case Ok(tips) =>
            a := Attempt(Ok(Response(200, tips)), Some(userPromptParts), uploadedOpenAIFileIds);
        }
    }
  }

  /**
   * `GET`: the `try` block, the `catch` block's clean-up and 500 response on
   * an error, and the `finally` block's clean-up on every path.
   */
  method Get(w: World) returns (response: Response, prompt: Option<seq<Part>>, deletions: seq<string>, logged: seq<string>)
    ensures response == FinalResponse(TryGet(w))
    ensures prompt == TryGet(w).prompt
    ensures deletions == Deletions(TryGet(w))
    ensures logged == DeletionFailures(TryGet(w), w.deleted)
  {
    var a := TryBlock(w);
    prompt := a.prompt;
    deletions, logged := [], [];
    var round := 0;
    match a.result {
      case Ok(r) =>
        response := r;
      case Err(m) =>
        if |a.uploaded| > 0 {
          deletions, logged := CleanupOpenAIFiles(a.uploaded, id => w.deleted(0, id));
        }
        round := 1;
        response := ErrorResponse(m);
    }
    if |a.uploaded| > 0 {
      var requests, failed := CleanupOpenAIFiles(a.uploaded, id => w.deleted(round, id));
      deletions, logged := deletions + requests, logged + failed;
    }
  }

  // ------------------------------------------------------------ properties

  /** Whether the reply is accepted. */
  predicate Accepted(w: World)
  {
    SignedIn(w.user) && w.notesQuery.Ok? && w.filesQuery.Ok? && w.completion.Ok?
    && CheckReply(w.completion.value, w.parse).Ok?
  }

  /**
   * The three outcomes: 401 exactly when no user is signed in, 200 exactly
   * when the reply is accepted, with the parsed tips as the body, and 500
   * with a non-empty error message and nothing else otherwise.
   */
  lemma ResponseCases(w: World)
    ensures var r := FinalResponse(TryGet(w));
      && (r.status == 401 <==> !SignedIn(w.user))
      && (r.status == 200 <==> Accepted(w))
      && (r.status == 200 ==> HasTips(r.body) && r.body == w.parse(w.completion.value.value).value)
      && (r.status != 200 && r.status != 401 ==> r.status == 500 && r.body.Object? && r.body.fields.Keys == {"error"})
  {
    var a := TryGet(w);
    if SignedIn(w.user) && w.notesQuery.Ok? && w.filesQuery.Ok? && w.completion.Ok? {
      var checked := CheckReply(w.completion.value, w.parse);
      assert a.result == if checked.Ok? then Ok(Response(200, checked.value)) else Err(checked.message);
    } else if SignedIn(w.user) {
      assert a.result.Err?;
    }
  }

  /**
   * Failed deletions never reach the client: whatever the service answers to
   * the deletion requests, the response, the prompt and the requests made
   * are the same.
   */
  lemma DeletionOutcomesAreInvisible(w: World, deleted: (nat, string) -> bool)
    ensures FinalResponse(TryGet(w.(deleted := deleted))) == FinalResponse(TryGet(w))
    ensures TryGet(w.(deleted := deleted)).prompt == TryGet(w).prompt
    ensures Deletions(TryGet(w.(deleted := deleted))) == Deletions(TryGet(w))
  {
    var w' := w.(deleted := deleted);
    assert w'.user == w.user && w'.notesQuery == w.notesQuery && w'.filesQuery == w.filesQuery;
    assert w'.now == w.now && w'.storage == w.storage && w'.completion == w.completion && w'.parse == w.parse;
    assert TryGet(w') == TryGet(w);
  }

  /** A response of the catch block is exactly a thrown error. */
  lemma ErrorIsStatus500(w: World)
    ensures FinalResponse(TryGet(w)).status == 500 <==> TryGet(w).result.Err?
  {
    var a := TryGet(w);
    if a.result.Ok? {
      assert a.result.value.status == 401 || a.result.value.status == 200;
    }
  }

  /**
   * Every recorded upload gets a deletion request: once when the tips are
   * returned, twice after an error. Nothing was uploaded when the user was
   * missing or a query failed.
   */
  lemma DeletionRounds(w: World, id: string)
    ensures var a := TryGet(w);
      multiset(Deletions(a))[id] == (if FinalResponse(a).status == 500 then 2 else 1) * multiset(a.uploaded)[id]
    ensures !SignedIn(w.user) || w.notesQuery.Err? || w.filesQuery.Err? ==> TryGet(w).uploaded == []
  {
    var a := TryGet(w);
    ErrorIsStatus500(w);
    if a.result.Err? {
      assert multiset(a.uploaded + a.uploaded) == multiset(a.uploaded) + multiset(a.uploaded);
    }
  }

  /**
   * The user message sent to the generator: the header, the notes and the
   * files texts, then the resolved parts in scheduling order; it is sent
   * exactly when a user is signed in and both queries succeed.
   */
  lemma PromptShape(w: World)
    ensures TryGet(w).prompt.Some? <==> SignedIn(w.user) && w.notesQuery.Ok? && w.filesQuery.Ok?
    ensures TryGet(w).prompt.Some? ==>
      var notes := OrEmpty(w.notesQuery.value);
      var files := OrEmpty(w.filesQuery.value);
      var p := TryGet(w).prompt.value;
      |p| >= 3 && p[..3] == TextParts(w.now, notes, files)
      && p[3..] == ResolvedParts(PlannedJobs(w.now, notes, files), w.storage)
  {
    if SignedIn(w.user) && w.notesQuery.Ok? && w.filesQuery.Ok? {
      var notes := OrEmpty(w.notesQuery.value);
      var files := OrEmpty(w.filesQuery.value);
      var texts := TextParts(w.now, notes, files);
      var resolved := ResolvedParts(PlannedJobs(w.now, notes, files), w.storage);
      assert TryGet(w).prompt == Some(texts + resolved);
      assert |texts| == 3;
      assert (texts + resolved)[..3] == texts && (texts + resolved)[3..] == resolved;
    }
  }
}
