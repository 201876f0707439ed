/**
 * The decision core of `process_download` (bot.py:150-308) as pure
 * functions: the per-format engine options and predicted path, the
 * three-step resolution of the artifact's path, the size ceiling, the
 * status-message and upload calls, the error notices and what the `finally`
 * block removes. `Run` gives the whole outcome of one job; the imperative
 * `Session.Bot.ProcessDownload` is proved to produce exactly that outcome.
 */
module Download {
  import opened Wrappers
  import opened Text
  import opened ErrorText

  // ---------------------------------------------------------------------
  // Configuration (bot.py:19-21)
  // ---------------------------------------------------------------------

  const MaxFileSizeBytes: nat := MaxFileSizeMb * 1024 * 1024
  const DownloadPath := "downloads"

  lemma CeilingIs49MiB()
    ensures MaxFileSizeBytes == 51380224
  {
  }

  // ---------------------------------------------------------------------
  // The filesystem: path to size in bytes
  // ---------------------------------------------------------------------

  type Files = map<string, nat>

  /** `os.path.exists`: the empty path never exists. */
  predicate Exists(files: Files, path: string) {
    path != "" && path in files
  }

  /** `os.path.join(dir, name)` for a relative `name`. */
  function JoinPath(dir: string, name: string): string {
    dir + "/" + name
  }

  /** The filesystem after `cleanup_file(path)` (bot.py:33-40): an existing
      file is removed unless removing it raises `OSError` (the path is in
      `locked`), which is logged and swallowed. */
  function AfterCleanup(files: Files, locked: set<string>, path: string): (r: Files)
    ensures r.Keys <= files.Keys
    ensures forall q :: q in r ==> r[q] == files[q]
    ensures forall q :: q in files && q != path ==> q in r
    ensures path in locked || !Exists(r, path)
  {
    if Exists(files, path) && path !in locked then files - {path} else files
  }

  /** `cleanup_file` may be called any number of times on one path. */
  lemma CleanupIdempotent(files: Files, locked: set<string>, path: string)
    ensures AfterCleanup(AfterCleanup(files, locked, path), locked, path)
         == AfterCleanup(files, locked, path)
  {
  }

  /** The `finally` block (bot.py:305-308): remove the path it holds, if any. */
  function AfterFinally(files: Files, locked: set<string>, cleaned: Option<string>): Files {
    match cleaned
    case None => files
    case Some(p) => AfterCleanup(files, locked, p)
  }

  // ---------------------------------------------------------------------
  // Format choice and engine options (bot.py:137, 160-193)
  // ---------------------------------------------------------------------

  datatype Format = Audio | Video

  /** The `download_type` string. */
  function FormatName(f: Format): string {
    match f
    case Audio => "audio"
    case Video => "video"
  }

  /** bot.py:137: video exactly when the button's data contains "video". */
  function FormatOf(callbackData: string): (f: Format)
    ensures f == Video <==> Occurs(callbackData, "video")
  {
    ContainsIsOccurs(callbackData, "video");
    if Contains(callbackData, "video") then Video else Audio
  }

  function Extension(f: Format): string {
    match f
    case Audio => ".mp3"
    case Video => ".mp4"
  }

  /** `final_file_path` (bot.py:193). */
  function PredictedPath(fileId: string, f: Format): string {
    JoinPath(DownloadPath, fileId + Extension(f))
  }

  /** The predicted file is named after the job: `<file_id>.mp3` for audio,
      `<file_id>.mp4` for video, so the directory scan would find it too. */
  lemma PredictedPathNamesJob(fileId: string, f: Format)
    requires '/' !in fileId
    ensures BaseName(PredictedPath(fileId, f)) == fileId + (if f == Video then ".mp4" else ".mp3")
    ensures fileId <= BaseName(PredictedPath(fileId, f))
  {
    BaseNameOfJoin(DownloadPath, fileId + Extension(f));
  }

  datatype PostProcessor = ExtractAudio(codec: string, quality: string)

  /** The keys of `ydl_opts` the core sets; `logger` and `progress_hooks` are
      left out. An empty `format` stands for the absent key. */
  datatype Options = Options(
    outtmpl: string,
    noplaylist: bool,
    maxFilesize: nat,
    format: string,
    postprocessors: seq<PostProcessor>,
    mergeOutputFormat: Option<string>)

  /** The video selector of bot.py:187 with the ceiling written out. */
  const VideoSelector :=
    "bestvideo[ext=mp4][filesize<51380224]+bestaudio[ext=m4a][filesize<51380224]" +
    "/best[ext=mp4][filesize<51380224]/mp4[filesize<51380224]"

  /** `ydl_opts` after the per-format `update` (bot.py:163-190). */
  function EngineOptions(fileId: string, f: Format): (o: Options)
    ensures o.noplaylist && o.maxFilesize == MaxFileSizeBytes
    ensures f == Audio ==> o.outtmpl == PredictedPath(fileId, Audio)
    ensures f == Audio ==> o.postprocessors == [ExtractAudio("mp3", "192")] && o.mergeOutputFormat == None
    ensures f == Video ==> o.outtmpl == JoinPath(DownloadPath, fileId + ".%(ext)s")
    ensures f == Video ==> o.mergeOutputFormat == Some("mp4") && o.postprocessors == []
    ensures o.format == if f == Audio then "bestaudio/best" else VideoSelector
  {
    var base := Options(JoinPath(DownloadPath, fileId + ".%(ext)s"), true, MaxFileSizeBytes, "", [], None);
    match f
    case Audio =>
      base.(format := "bestaudio/best",
            postprocessors := [ExtractAudio("mp3", "192")],
            outtmpl := JoinPath(DownloadPath, fileId + ".mp3"))
    case Video =>
      base.(format := VideoSelector, mergeOutputFormat := Some("mp4"))
  }

  // ---------------------------------------------------------------------
  // Resolving the artifact's path (bot.py:200-215)
  // ---------------------------------------------------------------------

  /** The index of the first listed name that starts with `prefix`. */
  function FirstWithPrefix(listing: seq<string>, prefix: string): (r: Option<nat>)
    ensures r.Some? ==> r.value < |listing| && prefix <= listing[r.value]
    ensures r.Some? ==> forall j :: 0 <= j < r.value ==> !(prefix <= listing[j])
    ensures r.None? ==> forall j :: 0 <= j < |listing| ==> !(prefix <= listing[j])
  {
    if |listing| == 0 then None
    else if prefix <= listing[0] then Some(0)
    else match FirstWithPrefix(listing[1..], prefix)
      case None => None
      case Some(i) => Some(i + 1)
  }

  /** The three-step fallback: the path the engine reports, else the predicted
      path, else the first directory entry whose name starts with the job id. */
  function Resolve(files: Files, reported: string, predicted: string,
                   fileId: string, listing: seq<string>): (r: Option<string>)
    ensures Exists(files, reported) ==> r == Some(reported)
    ensures !Exists(files, reported) && Exists(files, predicted) ==> r == Some(predicted)
    ensures !Exists(files, reported) && !Exists(files, predicted) ==>
      (r.Some? <==> exists i :: 0 <= i < |listing| && fileId <= listing[i])
    ensures !Exists(files, reported) && !Exists(files, predicted) && r.Some? ==>
      exists i :: 0 <= i < |listing| && fileId <= listing[i] &&
        r.value == JoinPath(DownloadPath, listing[i]) &&
        forall j :: 0 <= j < i ==> !(fileId <= listing[j])
  {
    if Exists(files, reported) then Some(reported)
    else if Exists(files, predicted) then Some(predicted)
    else match FirstWithPrefix(listing, fileId)
      case None => None
      case Some(i) => Some(JoinPath(DownloadPath, listing[i]))
  }

  /** `listing` is a listing of the download directory of `files`. */
  ghost predicate ListingOf(files: Files, listing: seq<string>) {
    forall i :: 0 <= i < |listing| ==> listing[i] != "" && JoinPath(DownloadPath, listing[i]) in files
  }

  /** With a listing that agrees with the filesystem, a resolved path exists. */
  lemma ResolvedPathExists(files: Files, reported: string, predicted: string,
                           fileId: string, listing: seq<string>)
    requires ListingOf(files, listing)
    requires Resolve(files, reported, predicted, fileId, listing).Some?
    ensures Exists(files, Resolve(files, reported, predicted, fileId, listing).value)
  {
  }

  /** `downloaded_file_path` once resolution is over: the resolved path, or
      the reported one when resolution raised `FileNotFoundError`. */
  function Artifact(files: Files, listing: seq<string>, fileId: string, f: Format,
                    reported: string): string
  {
    Resolve(files, reported, PredictedPath(fileId, f), fileId, listing).GetOr(reported)
  }

  // ---------------------------------------------------------------------
  // The engine, the chat transport and what one job does
  // ---------------------------------------------------------------------

  /** How the engine part of the `with` block (bot.py:196-200) ends: with the
      path `prepare_filename` gives and the title, or raising `DownloadError`,
      `FileNotFoundError` or another exception, with its text. */
  datatype EngineOutcome =
    | Finished(reportedPath: string, title: Option<string>)
    | DownloadError(text: string)
    | FileNotFound(text: string)
    | Crashed(text: string)

  /** One run of the engine: the files it writes (in every case) and how it ends. */
  datatype EngineRun = EngineRun(written: Files, outcome: EngineOutcome)

  /** Whether each chat call of one job succeeds, and the text of the
      exception a failing call raises. Each call site runs at most once; the
      "starting" edit of bot.py:141 is absent because its failure is ignored. */
  datatype Transport = Transport(
    missingEditOk: bool,        // bot.py:131
    sizeEditOk: bool,           // bot.py:225
    uploadEditOk: bool,         // bot.py:234
    sendOk: bool,               // bot.py:241 or bot.py:257
    deleteOk: bool,             // bot.py:269
    errorEditOk: bool,          // bot.py:285
    errorFallbackOk: bool,      // bot.py:289
    notFoundEditOk: bool,       // bot.py:293
    unexpectedEditOk: bool,     // bot.py:298
    unexpectedFallbackOk: bool, // bot.py:303
    failure: string)

  /** What is shown in the status message; `SizeExceeded` stands for the text
      of bot.py:228, whose size is printed in megabytes with two decimals. */
  datatype Message = Text(text: string) | SizeExceeded(sizeBytes: nat)

  /** A chat call the bot makes (attempted; success is given by `Transport`). */
  datatype Action =
    | Reply(text: string)
    | ShowHelp
    | Edit(msg: Message)
    | Send(format: Format, path: string, caption: string, filename: string)
    | DeleteStatus
    | SendMessage(text: string)

  /** Whether the handler returns or an exception escapes it. */
  datatype Exit = Completed | Escaped(error: string)

  /** The chat calls of an `except` clause and how the handler then ends. */
  datatype Notice = Notice(trace: seq<Action>, exit: Exit)

  /** Which `except` clause of `process_download` a failure lands in. */
  datatype Fault =
    | NoFault
    | EngineError(text: string)   // yt_dlp.utils.DownloadError
    | FileMissing                 // FileNotFoundError
    | OtherFault(text: string)    // any other Exception

  /** The chat calls of a stretch of the `try` block and the exception it raises. */
  datatype Attempt = Attempt(trace: seq<Action>, fault: Fault)

  /** The `try` block as a whole: also the value `downloaded_file_path` holds. */
  datatype TryResult = TryResult(trace: seq<Action>, downloaded: Option<string>, fault: Fault)

  /** What one job does: its chat calls, the path its `finally` cleans, how it ends. */
  datatype Report = Report(trace: seq<Action>, cleaned: Option<string>, exit: Exit)

  const UploadingText := "⬆️ Uploading to Telegram..."
  const NotFoundText := "❌ Error: Could not find the downloaded file on the server."
  const UnexpectedPrefix := "❌ An unexpected error occurred: "
  const UnexpectedFallback := "❌ An unexpected error occurred."
  const DefaultCaption := "YouTube Download"

  /** From the existence check (bot.py:220) to the end of the `try` block
      (bot.py:269); a failing chat call raises into `except Exception`. */
  function Deliver(files: Files, path: string, f: Format, caption: string, t: Transport): Attempt {
    if !Exists(files, path) then Attempt([], FileMissing)
    else if files[path] > MaxFileSizeBytes then
      Attempt([Edit(SizeExceeded(files[path]))], if t.sizeEditOk then NoFault else OtherFault(t.failure))
    else
      var uploading := Edit(Text(UploadingText));
      var send := Send(f, path, caption, BaseName(path));
      if !t.uploadEditOk then Attempt([uploading], OtherFault(t.failure))
      else if !t.sendOk then Attempt([uploading, send], OtherFault(t.failure))
      else if !t.deleteOk then Attempt([uploading, send, DeleteStatus], OtherFault(t.failure))
      else Attempt([uploading, send, DeleteStatus], NoFault)
  }

  /** The `try` block (bot.py:195-269), given the filesystem after the engine ran. */
  function TryBlock(files: Files, listing: seq<string>, fileId: string, f: Format,
                    outcome: EngineOutcome, t: Transport): TryResult
  {
    match outcome
    case DownloadError(text) => TryResult([], None, EngineError(text))
    case FileNotFound(_) => TryResult([], None, FileMissing)
    case Crashed(e) => TryResult([], None, OtherFault(e))
    case Finished(reported, title) =>
      var path := Artifact(files, listing, fileId, f, reported);
      if Resolve(files, reported, PredictedPath(fileId, f), fileId, listing).None? then
        TryResult([], Some(path), FileMissing)
      else
        var a := Deliver(files, path, f, title.GetOr(DefaultCaption), t);
        TryResult(a.trace, Some(path), a.fault)
  }

  /** `except DownloadError` (bot.py:284-289): edit, else send a new message. */
  function DownloadErrorNotice(msg: string, t: Transport): Notice {
    if t.errorEditOk then Notice([Edit(Text(msg))], Completed)
    else Notice([Edit(Text(msg)), SendMessage(msg)],
                if t.errorFallbackOk then Completed else Escaped(t.failure))
  }

  /** `except FileNotFoundError` (bot.py:293): edit, with no fallback. */
  function NotFoundNotice(t: Transport): Notice {
    Notice([Edit(Text(NotFoundText))], if t.notFoundEditOk then Completed else Escaped(t.failure))
  }

  /** `except Exception` (bot.py:297-303): edit, else send a shorter new message. */
  function UnexpectedNotice(e: string, t: Transport): Notice {
    if t.unexpectedEditOk then Notice([Edit(Text(UnexpectedPrefix + e))], Completed)
    else Notice([Edit(Text(UnexpectedPrefix + e)), SendMessage(UnexpectedFallback)],
                if t.unexpectedFallbackOk then Completed else Escaped(t.failure))
  }

  /** The `except` clause a fault selects (bot.py:271-303). */
  function Handle(fault: Fault, t: Transport): Notice {
    match fault
    case NoFault => Notice([], Completed)
    case EngineError(text) => DownloadErrorNotice(DownloadErrorMessage(text), t)
    case FileMissing => NotFoundNotice(t)
    case OtherFault(e) => UnexpectedNotice(e, t)
  }

  /** `if downloaded_file_path:` (bot.py:307): `None` and "" are both skipped. */
  function CleanedPath(downloaded: Option<string>): Option<string> {
    if downloaded.Some? && downloaded.value != "" then downloaded else None
  }

  /** The whole job, given the filesystem after the engine ran. */
  function Run(files: Files, listing: seq<string>, fileId: string, f: Format,
               outcome: EngineOutcome, t: Transport): Report
  {
    var a := TryBlock(files, listing, fileId, f, outcome, t);
    var h := Handle(a.fault, t);
    Report(a.trace + h.trace, CleanedPath(a.downloaded), h.exit)
  }

  // ---------------------------------------------------------------------
  // What every job guarantees
  // ---------------------------------------------------------------------

  /** The filesystem the `try` block leaves: only the oversize refusal
      removes anything, and only once its message is shown (bot.py:224-230). */
  predicate CleansEarly(files: Files, outcome: EngineOutcome, downloaded: Option<string>, t: Transport) {
    outcome.Finished? && downloaded.Some? && Exists(files, downloaded.value)
    && files[downloaded.value] > MaxFileSizeBytes && t.sizeEditOk
  }

  /** Running the `finally` cleanup on what the `try` block left gives what
      `Run` says, although an oversize artifact was already cleaned once. */
  lemma FinallyAfterTry(files: Files, locked: set<string>, listing: seq<string>, fileId: string,
                        f: Format, outcome: EngineOutcome, t: Transport, mid: Files)
    requires var d := TryBlock(files, listing, fileId, f, outcome, t).downloaded;
      mid == if CleansEarly(files, outcome, d, t) then AfterCleanup(files, locked, d.value) else files
    ensures var d := TryBlock(files, listing, fileId, f, outcome, t).downloaded;
      (if d.Some? && d.value != "" then AfterCleanup(mid, locked, d.value) else mid)
      == AfterFinally(files, locked, Run(files, listing, fileId, f, outcome, t).cleaned)
  {
    var d := TryBlock(files, listing, fileId, f, outcome, t).downloaded;
    if d.Some? {
      CleanupIdempotent(files, locked, d.value);
    }
  }

  predicate HasSend(trace: seq<Action>) {
    exists i :: 0 <= i < |trace| && trace[i].Send?
  }

  /** The `except` clauses only edit or send text. */
  lemma HandleIsTextOnly(fault: Fault, t: Transport)
    ensures forall i :: 0 <= i < |Handle(fault, t).trace| ==>
      Handle(fault, t).trace[i].Edit? || Handle(fault, t).trace[i].SendMessage?
  {
  }

  /** Every upload in the `try` block names an existing file within the ceiling. */
  lemma TryUploadsWithinCeiling(files: Files, listing: seq<string>, fileId: string, f: Format,
                                outcome: EngineOutcome, t: Transport)
    ensures var tr := TryBlock(files, listing, fileId, f, outcome, t).trace;
      forall i :: 0 <= i < |tr| && tr[i].Send? ==>
        Exists(files, tr[i].path) && files[tr[i].path] <= MaxFileSizeBytes
  {
  }

  /** Nothing above the ceiling is ever handed to the upload calls, and every
      upload names an existing file. */
  lemma NoUploadAboveCeiling(files: Files, listing: seq<string>, fileId: string, f: Format,
                             outcome: EngineOutcome, t: Transport)
    ensures var tr := Run(files, listing, fileId, f, outcome, t).trace;
      forall i :: 0 <= i < |tr| && tr[i].Send? ==>
        Exists(files, tr[i].path) && files[tr[i].path] <= MaxFileSizeBytes
  {
    var a := TryBlock(files, listing, fileId, f, outcome, t);
    var h := Handle(a.fault, t);
    var tr := a.trace + h.trace;
    TryUploadsWithinCeiling(files, listing, fileId, f, outcome, t);
    HandleIsTextOnly(a.fault, t);
    forall i | 0 <= i < |tr| && tr[i].Send?
      ensures Exists(files, tr[i].path) && files[tr[i].path] <= MaxFileSizeBytes
    {
      assert tr[i] == a.trace[i];
    }
  }

  /** Delivery uploads only the path it was given, with the given caption. */
  lemma DeliverUploadsPath(files: Files, path: string, f: Format, caption: string, t: Transport)
    ensures var tr := Deliver(files, path, f, caption, t).trace;
      forall i :: 0 <= i < |tr| && tr[i].Send? ==> tr[i] == Send(f, path, caption, BaseName(path))
  {
    var tr := Deliver(files, path, f, caption, t).trace;
    var send := Send(f, path, caption, BaseName(path));
    var uploading := Edit(Text(UploadingText));
    if !Exists(files, path) {
      assert tr == [];
    } else if files[path] > MaxFileSizeBytes {
      assert tr == [Edit(SizeExceeded(files[path]))];
    } else {
      assert tr == [uploading] || tr == [uploading, send] || tr == [uploading, send, DeleteStatus];
    }
  }

  /** Every upload in the `try` block is of the resolved artifact. */
  lemma TryUploadsResolvedArtifact(files: Files, listing: seq<string>, fileId: string, f: Format,
                                   outcome: EngineOutcome, t: Transport)
    requires outcome.Finished?
    ensures var p := Artifact(files, listing, fileId, f, outcome.reportedPath);
      var tr := TryBlock(files, listing, fileId, f, outcome, t).trace;
      forall i :: 0 <= i < |tr| && tr[i].Send? ==>
        tr[i] == Send(f, p, outcome.title.GetOr(DefaultCaption), BaseName(p))
  {
    var p := Artifact(files, listing, fileId, f, outcome.reportedPath);
    var caption := outcome.title.GetOr(DefaultCaption);
    if Resolve(files, outcome.reportedPath, PredictedPath(fileId, f), fileId, listing).Some? {
      assert TryBlock(files, listing, fileId, f, outcome, t).trace == Deliver(files, p, f, caption, t).trace;
      DeliverUploadsPath(files, p, f, caption, t);
    }
  }

  /** Every upload is of the resolved artifact, by the call the format picks,
      captioned with the title or "YouTube Download" and named by the
      artifact's base name (bot.py:238-266). */
  lemma UploadIsResolvedArtifact(files: Files, listing: seq<string>, fileId: string, f: Format,
                                 outcome: EngineOutcome, t: Transport)
    requires outcome.Finished?
    ensures var p := Artifact(files, listing, fileId, f, outcome.reportedPath);
      var tr := Run(files, listing, fileId, f, outcome, t).trace;
      forall i :: 0 <= i < |tr| && tr[i].Send? ==>
        tr[i] == Send(f, p, outcome.title.GetOr(DefaultCaption), BaseName(p))
  {
    var a := TryBlock(files, listing, fileId, f, outcome, t);
    var tr := a.trace + Handle(a.fault, t).trace;
    TryUploadsResolvedArtifact(files, listing, fileId, f, outcome, t);
    HandleIsTextOnly(a.fault, t);
    var p := Artifact(files, listing, fileId, f, outcome.reportedPath);
    forall i | 0 <= i < |tr| && tr[i].Send?
      ensures tr[i] == Send(f, p, outcome.title.GetOr(DefaultCaption), BaseName(p))
    {
      assert tr[i] == a.trace[i];
    }
  }

  /** An upload is attempted exactly when the engine finished, the artifact
      exists, it is within the ceiling and the "uploading" edit went through. */
  lemma UploadAttemptedIff(files: Files, listing: seq<string>, fileId: string, f: Format,
                           outcome: EngineOutcome, t: Transport)
    ensures HasSend(Run(files, listing, fileId, f, outcome, t).trace) <==>
      outcome.Finished? &&
      var p := Artifact(files, listing, fileId, f, outcome.reportedPath);
      Exists(files, p) && files[p] <= MaxFileSizeBytes && t.uploadEditOk
  {
    var a := TryBlock(files, listing, fileId, f, outcome, t);
    var h := Handle(a.fault, t);
    var tr := a.trace + h.trace;
    HandleIsTextOnly(a.fault, t);
    if HasSend(tr) {
      var i :| 0 <= i < |tr| && tr[i].Send?;
      assert a.trace[i].Send?;
    }
    if outcome.Finished? {
      var p := Artifact(files, listing, fileId, f, outcome.reportedPath);
      if Exists(files, p) && files[p] <= MaxFileSizeBytes && t.uploadEditOk {
        assert tr[1] == a.trace[1];
      }
    }
  }

  /** An artifact above the ceiling gets the size message, no upload, and is
      still cleaned by the `finally` block (bot.py:223-231). */
  lemma OversizeIsRefused(files: Files, listing: seq<string>, fileId: string, f: Format,
                          outcome: EngineOutcome, t: Transport)
    requires outcome.Finished?
    requires Exists(files, Artifact(files, listing, fileId, f, outcome.reportedPath))
    requires files[Artifact(files, listing, fileId, f, outcome.reportedPath)] > MaxFileSizeBytes
    ensures var p := Artifact(files, listing, fileId, f, outcome.reportedPath);
      var r := Run(files, listing, fileId, f, outcome, t);
      && |r.trace| > 0 && r.trace[0] == Edit(SizeExceeded(files[p]))
      && !HasSend(r.trace)
      && r.cleaned == Some(p)
  {
    UploadAttemptedIff(files, listing, fileId, f, outcome, t);
  }

  /** The resolved artifact is gone after the job, on every exit path, unless
      the filesystem refuses to remove it; no other file is touched. */
  lemma ArtifactGoneOnEveryExit(files: Files, locked: set<string>, listing: seq<string>,
                                fileId: string, f: Format, outcome: EngineOutcome, t: Transport)
    requires outcome.Finished?
    ensures var p := Artifact(files, listing, fileId, f, outcome.reportedPath);
      var r := Run(files, listing, fileId, f, outcome, t);
      var after := AfterFinally(files, locked, r.cleaned);
      && (Exists(files, p) ==> r.cleaned == Some(p))
      && (p !in locked ==> !Exists(after, p))
      && (forall q :: q in files && q != p ==> q in after)
  {
  }

  /** When `extract_info` raises, `downloaded_file_path` was never assigned,
      so the `finally` block removes nothing (bot.py:192, bot.py:307). */
  lemma EngineFailureRemovesNothing(files: Files, locked: set<string>, listing: seq<string>,
                                    fileId: string, f: Format, outcome: EngineOutcome, t: Transport)
    requires !outcome.Finished?
    ensures AfterFinally(files, locked, Run(files, listing, fileId, f, outcome, t).cleaned) == files
  {
  }

  /** The status message is deleted only right after an upload succeeded, and
      always then (bot.py:269). */
  lemma StatusDeletedOnlyAfterUpload(files: Files, listing: seq<string>, fileId: string, f: Format,
                                     outcome: EngineOutcome, t: Transport)
    ensures var tr := Run(files, listing, fileId, f, outcome, t).trace;
      && (forall i :: 0 <= i < |tr| && tr[i] == DeleteStatus ==> 0 < i && tr[i - 1].Send? && t.sendOk)
      && (DeleteStatus in tr <==> HasSend(tr) && t.sendOk)
  {
    var a := TryBlock(files, listing, fileId, f, outcome, t);
    var h := Handle(a.fault, t);
    var tr := a.trace + h.trace;
    HandleIsTextOnly(a.fault, t);
    UploadAttemptedIff(files, listing, fileId, f, outcome, t);
    forall i | 0 <= i < |tr| && tr[i] == DeleteStatus
      ensures 0 < i && tr[i - 1].Send? && t.sendOk
    {
      assert a.trace[i] == DeleteStatus;
      assert tr[i - 1] == a.trace[i - 1];
    }
    if HasSend(tr) && t.sendOk {
      assert tr[2] == a.trace[2] == DeleteStatus;
    }
    if DeleteStatus in tr {
      var i :| 0 <= i < |tr| && tr[i] == DeleteStatus;
      assert tr[i - 1].Send?;
    }
  }

  /** A download error is shown by editing the status message, and only when
      that edit fails by a new message (bot.py:284-289). */
  lemma DownloadErrorShown(files: Files, listing: seq<string>, fileId: string, f: Format,
                           outcome: EngineOutcome, t: Transport)
    requires outcome.DownloadError?
    ensures var msg := DownloadErrorMessage(outcome.text);
      var r := Run(files, listing, fileId, f, outcome, t);
      && r.trace == [Edit(Text(msg))] + (if t.errorEditOk then [] else [SendMessage(msg)])
      && (r.exit == Completed <==> t.errorEditOk || t.errorFallbackOk)
  {
  }

  /** Any other engine failure is shown with its text, falling back to a
      generic new message (bot.py:297-303). */
  lemma UnexpectedErrorShown(files: Files, listing: seq<string>, fileId: string, f: Format,
                             outcome: EngineOutcome, t: Transport)
    requires outcome.Crashed?
    ensures var r := Run(files, listing, fileId, f, outcome, t);
      && r.trace == [Edit(Text(UnexpectedPrefix + outcome.text))] +
                    (if t.unexpectedEditOk then [] else [SendMessage(UnexpectedFallback)])
      && (r.exit == Completed <==> t.unexpectedEditOk || t.unexpectedFallbackOk)
  {
  }

  /** A chat call that fails while the artifact is delivered (the size edit
      of bot.py:225, the "uploading" edit of bot.py:234, the upload of
      bot.py:241 or bot.py:257, the delete of bot.py:269) raises into
      `except Exception`: the error text is edited in, and only if that edit
      fails is the short message sent anew (bot.py:295-303). */
  lemma DeliveryFailureShown(files: Files, listing: seq<string>, fileId: string, f: Format,
                             outcome: EngineOutcome, t: Transport)
    requires outcome.Finished?
    requires var p := Artifact(files, listing, fileId, f, outcome.reportedPath);
      Exists(files, p) &&
      (if files[p] > MaxFileSizeBytes then !t.sizeEditOk else !(t.uploadEditOk && t.sendOk && t.deleteOk))
    ensures var a := TryBlock(files, listing, fileId, f, outcome, t);
      var r := Run(files, listing, fileId, f, outcome, t);
      && a.fault == OtherFault(t.failure)
      && r.trace == a.trace + [Edit(Text(UnexpectedPrefix + t.failure))] +
                    (if t.unexpectedEditOk then [] else [SendMessage(UnexpectedFallback)])
      && (r.exit == Completed <==> t.unexpectedEditOk || t.unexpectedFallbackOk)
  {
  }

  /** A missing artifact, or a `FileNotFoundError` raised by the engine, is
      reported by one edit with no fallback message (bot.py:291-293); a
      failing edit escapes the handler. */
  lemma MissingArtifactShown(files: Files, listing: seq<string>, fileId: string, f: Format,
                             outcome: EngineOutcome, t: Transport)
    requires outcome.FileNotFound? ||
             (outcome.Finished? && !Exists(files, Artifact(files, listing, fileId, f, outcome.reportedPath)))
    ensures var r := Run(files, listing, fileId, f, outcome, t);
      r.trace == [Edit(Text(NotFoundText))] && (r.exit == Completed <==> t.notFoundEditOk)
  {
  }

  /** An audio job whose engine leaves a 2 MiB `<file_id>.mp3` titled
      "Test Song", with every chat call succeeding: one upload with that
      caption and file name, then the status message is deleted and the file
      removed. */
  lemma AudioJobEndToEnd(files: Files, locked: set<string>, listing: seq<string>,
                         fileId: string, reported: string, t: Transport)
    requires '/' !in fileId
    requires reported == PredictedPath(fileId, Audio)
    requires reported in files && files[reported] == 2 * 1024 * 1024 && reported !in locked
    requires t.uploadEditOk && t.sendOk && t.deleteOk
    ensures var r := Run(files, listing, fileId, Audio, Finished(reported, Some("Test Song")), t);
      && r.trace == [Edit(Text(UploadingText)), Send(Audio, reported, "Test Song", fileId + ".mp3"), DeleteStatus]
      && r.exit == Completed
      && reported !in AfterFinally(files, locked, r.cleaned)
  {
    PredictedPathNamesJob(fileId, Audio);
  }
}
