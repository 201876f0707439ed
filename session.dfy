/**
 * The bot's state and handlers: the per-user `user_data` map holding the
 * pending link (bot.py:103, bot.py:124-137), the download directory, the
 * chat calls made so far, and the imperative `process_download`
 * (bot.py:150-308) and `cleanup_file` (bot.py:33-40), proved to do what
 * `Download.Run` and `Download.AfterCleanup` say.
 */
module Session {
  import opened Wrappers
  import opened Text
  import opened YoutubeUrl
  import opened ErrorText
  import opened Download

  const UrlKey := "url_to_download"
  const HelpData := "help_info"

  const NoLinkText :=
    "Please provide a YouTube link after the command.\nExample: `/download https://youtu.be/dQw4w9WgXcQ`"
  const InvalidLinkText := "Hmm, that doesn't look like a valid YouTube URL. Please try again."
  const ChooseFormatText := "Choose download format:"
  const MissingUrlText :=
    "Error: Could not find the URL to download. Please try the /download command again."

  /** bot.py:141. */
  function StartingText(f: Format): string {
    "⏳ Starting download for " + FormatName(f) + "... Please wait."
  }

  // ---------------------------------------------------------------------
  // The pending link, as values
  // ---------------------------------------------------------------------

  /** `context.user_data.get('url_to_download')` read as Python's `if not url`
      does: an absent key and an empty string both count as no link. */
  function PendingUrl(userData: map<string, string>): Option<string> {
    if UrlKey in userData && userData[UrlKey] != "" then Some(userData[UrlKey]) else None
  }

  /** Storing a link fills the slot with it, removing the key empties it, and
      no other key of `user_data` matters. A link `/download` accepts is
      never empty, so storing one always leaves a pending link. */
  lemma StoreThenTake(userData: map<string, string>, url: string, otherKey: string)
    ensures url != "" ==> PendingUrl(userData[UrlKey := url]) == Some(url)
    ensures IsValidYoutubeUrl(url) ==> PendingUrl(userData[UrlKey := url]) == Some(url)
    ensures PendingUrl(userData[UrlKey := url] - {UrlKey}) == None
    ensures otherKey != UrlKey ==> PendingUrl(userData[otherKey := url]) == PendingUrl(userData)
  {
    if url == "" {
      AnchoredAtStart(url);
    }
  }

  /** What a button press does, decided from its data and the pending slot. */
  datatype Press = Help | MissingUrl | Begin(url: string, format: Format)

  function Decide(userData: map<string, string>, data: string): Press {
    if data == HelpData then Help
    else match PendingUrl(userData)
      case None => MissingUrl
      case Some(url) => Begin(url, FormatOf(data))
  }

  /** The user data after a press: a started download has consumed the link. */
  function AfterPress(userData: map<string, string>, data: string): (r: map<string, string>)
    ensures Decide(userData, data).Begin? ==> UrlKey !in r
    ensures !Decide(userData, data).Begin? ==> r == userData
    ensures forall k :: k != UrlKey ==> (k in r <==> k in userData)
    ensures forall k :: k in r ==> r[k] == userData[k]
  {
    if Decide(userData, data).Begin? then userData - {UrlKey} else userData
  }

  /** A stored link is started by the first format press and consumed by it:
      a second press without a new `/download` finds nothing and starts
      nothing (bot.py:129-135). */
  lemma PendingLinkConsumedOnce(userData: map<string, string>, url: string, first: string, second: string)
    requires url != "" && first != HelpData && second != HelpData
    ensures var stored := userData[UrlKey := url];
      var afterFirst := AfterPress(stored, first);
      && Decide(stored, first) == Begin(url, FormatOf(first))
      && UrlKey !in afterFirst
      && Decide(afterFirst, second) == MissingUrl
      && AfterPress(afterFirst, second) == afterFirst
  {
  }

  /** The help button neither reads nor consumes the pending link (bot.py:124-126). */
  lemma HelpLeavesLinkAlone(userData: map<string, string>)
    ensures Decide(userData, HelpData) == Help && AfterPress(userData, HelpData) == userData
  {
  }

  /** A second `/download` replaces the first link: the next press starts the newer one. */
  lemma NewerLinkWins(userData: map<string, string>, older: string, newer: string, data: string)
    requires newer != "" && data != HelpData
    ensures Decide(userData[UrlKey := older][UrlKey := newer], data) == Begin(newer, FormatOf(data))
  {
  }

  /** The two buttons of bot.py:107-108 select the two formats. */
  lemma ButtonsSelectFormats(video: string, audio: string)
    requires video == "download_video" && audio == "download_audio"
    ensures FormatOf(video) == Video && FormatOf(audio) == Audio
    ensures PredictedPath("id", FormatOf(video)) == "downloads/id.mp4"
    ensures PredictedPath("id", FormatOf(audio)) == "downloads/id.mp3"
  {
    assert OccursAt(video, "video", 9);
    assert forall j :: 0 <= j < |audio| ==> audio[j] != 'v';
    forall i: nat | i + 5 <= |audio|
      ensures !OccursAt(audio, "video", i)
    {
      assert audio[i] != 'v';
    }
  }

  // ---------------------------------------------------------------------
  // The bot
  // ---------------------------------------------------------------------

  class Bot {
    /** The files on disk, by path, with their sizes. */
    var files: Files
    /** Paths that `os.remove` refuses to delete (it raises `OSError`). */
    var locked: set<string>
    /** One user's `context.user_data`. */
    var userData: map<string, string>
    /** Every chat call made so far, in order. */
    var outbox: seq<Action>

    constructor (initialFiles: Files, undeletable: set<string>)
      ensures files == initialFiles && locked == undeletable
      ensures userData == map[] && outbox == []
    {
      files := initialFiles;
      locked := undeletable;
      userData := map[];
      outbox := [];
    }

    /** `cleanup_file` (bot.py:33-40): never raises. */
    method CleanupFile(path: string)
      modifies this`files
      ensures files == AfterCleanup(old(files), locked, path)
    {
      if Exists(files, path) {
        if path !in locked {
          files := files - {path};
        }
      }
    }

    /** bot.py:200-215: the reported path, else the predicted path, else the
        first listed entry starting with `fileId`; `None` is the
        `FileNotFoundError` of bot.py:215. */
    method ResolvePath(reported: string, predicted: string, fileId: string, listing: seq<string>)
      returns (path: Option<string>)
      ensures path == Resolve(files, reported, predicted, fileId, listing)
    {
      if Exists(files, reported) {
        return Some(reported);
      }
      if Exists(files, predicted) {
        return Some(predicted);
      }
      path := None;
      var i := 0;
      while i < |listing|
        invariant 0 <= i <= |listing|
        invariant forall j :: 0 <= j < i ==> !(fileId <= listing[j])
      {
        if fileId <= listing[i] {
          path := Some(JoinPath(DownloadPath, listing[i]));
          break;
        }
        i := i + 1;
      }
    }

    /** bot.py:220-269: check the artifact, refuse it above the ceiling
        (removing it at once once the size message is shown, bot.py:230),
        else announce, upload and delete the status message. */
    method DeliverArtifact(path: string, f: Format, caption: string, t: Transport)
      returns (fault: Fault)
      modifies this`files, this`outbox
      ensures var a := Deliver(old(files), path, f, caption, t);
        outbox == old(outbox) + a.trace && fault == a.fault
      ensures files == if Exists(old(files), path) && old(files)[path] > MaxFileSizeBytes && t.sizeEditOk
                       then AfterCleanup(old(files), locked, path) else old(files)
    {
      fault := NoFault;
      if !Exists(files, path) {
        fault := FileMissing;
        return;
      }
      var size := files[path];
      if size > MaxFileSizeBytes {
        outbox := outbox + [Edit(SizeExceeded(size))];
        if !t.sizeEditOk {
          fault := OtherFault(t.failure);
          return;
        }
        CleanupFile(path);
        return;
      }
      outbox := outbox + [Edit(Text(UploadingText))];
      if !t.uploadEditOk {
        fault := OtherFault(t.failure);
        return;
      }
      outbox := outbox + [Send(f, path, caption, BaseName(path))];
      if !t.sendOk {
        fault := OtherFault(t.failure);
        return;
      }
      outbox := outbox + [DeleteStatus];
      if !t.deleteOk {
        fault := OtherFault(t.failure);
      }
    }

    /** The `try` block of `process_download` after the engine ran (bot.py:195-269). */
    method TryDownload(f: Format, fileId: string, outcome: EngineOutcome,
                       listing: seq<string>, t: Transport)
      returns (downloaded: Option<string>, fault: Fault)
      modifies this`files, this`outbox
      ensures var a := TryBlock(old(files), listing, fileId, f, outcome, t);
        && outbox == old(outbox) + a.trace
        && downloaded == a.downloaded && fault == a.fault
      ensures files == if CleansEarly(old(files), outcome, downloaded, t)
                       then AfterCleanup(old(files), locked, downloaded.value) else old(files)
    {
      downloaded := None;
      match outcome {
        case DownloadError(text) =>
          fault := EngineError(text);
        case FileNotFound(_) =>
          fault := FileMissing;
        case Crashed(e) =>
          fault := OtherFault(e);
        case Finished(reported, title) =>
          downloaded := Some(reported);
          var predicted := PredictedPath(fileId, f);
          var resolved := ResolvePath(reported, predicted, fileId, listing);
          if resolved.None? {
            fault := FileMissing;
          } else {
            downloaded := resolved;
            fault := DeliverArtifact(resolved.value, f, title.GetOr(DefaultCaption), t);
          }
      }
    }

    /** The `except` clauses (bot.py:271-303): tell the user what went wrong. */
    method ReportFault(fault: Fault, t: Transport) returns (exit: Exit)
      modifies this`outbox
      ensures outbox == old(outbox) + Handle(fault, t).trace && exit == Handle(fault, t).exit
    {
      exit := Completed;
      match fault {
        case NoFault =>
        case EngineError(text) =>
          var msg := DownloadErrorMessage(text);
          outbox := outbox + [Edit(Text(msg))];
          if !t.errorEditOk {
            outbox := outbox + [SendMessage(msg)];
            if !t.errorFallbackOk {
              exit := Escaped(t.failure);
            }
          }
        case FileMissing =>
          outbox := outbox + [Edit(Text(NotFoundText))];
          if !t.notFoundEditOk {
            exit := Escaped(t.failure);
          }
        case OtherFault(e) =>
          outbox := outbox + [Edit(Text(UnexpectedPrefix + e))];
          if !t.unexpectedEditOk {
            outbox := outbox + [SendMessage(UnexpectedFallback)];
            if !t.unexpectedFallbackOk {
              exit := Escaped(t.failure);
            }
          }
      }
    }

    /** The `try`/`except`/`finally` of `process_download` (bot.py:195-308),
        once the engine has left its files on disk. */
    method RunJob(f: Format, fileId: string, outcome: EngineOutcome,
                  listing: seq<string>, t: Transport)
      returns (exit: Exit)
      modifies this`files, this`outbox
      ensures var r := Run(old(files), listing, fileId, f, outcome, t);
        && outbox == old(outbox) + r.trace
        && exit == r.exit
        && files == AfterFinally(old(files), locked, r.cleaned)
    {
      ghost var a := TryBlock(files, listing, fileId, f, outcome, t);
      var downloaded, fault := TryDownload(f, fileId, outcome, listing, t);
      FinallyAfterTry(old(files), locked, listing, fileId, f, outcome, t, files);
      ghost var afterTry := outbox;
      exit := ReportFault(fault, t);
      assert outbox == afterTry + Handle(a.fault, t).trace;
      // finally:
      if downloaded.Some? && downloaded.value != "" {
        CleanupFile(downloaded.value);
      }
    }

    /** `process_download` (bot.py:150-308). The engine is called once with
        the options of bot.py:163-190 and may write files whatever its
        outcome; `listing` is what `os.listdir` returns for the download
        directory. */
    method ProcessDownload(url: string, f: Format, fileId: string,
                           engine: (string, Options) -> EngineRun,
                           listing: seq<string>, t: Transport)
      returns (exit: Exit)
      modifies this`files, this`outbox
      ensures var run := engine(url, EngineOptions(fileId, f));
        var r := Run(old(files) + run.written, listing, fileId, f, run.outcome, t);
        && outbox == old(outbox) + r.trace
        && exit == r.exit
        && files == AfterFinally(old(files) + run.written, locked, r.cleaned)
    {
      var opts := EngineOptions(fileId, f);
      var run := engine(url, opts);
      files := files + run.written;
      exit := RunJob(f, fileId, run.outcome, listing, t);
    }

    /** `download_command` (bot.py:88-112): store a valid link in the pending
        slot, overwriting any earlier one, and offer the format buttons. */
    method DownloadCommand(args: seq<string>)
      modifies this`userData, this`outbox
      ensures args == [] ==> userData == old(userData) && outbox == old(outbox) + [Reply(NoLinkText)]
      ensures args != [] && !IsValidYoutubeUrl(args[0]) ==>
        userData == old(userData) && outbox == old(outbox) + [Reply(InvalidLinkText)]
      ensures args != [] && IsValidYoutubeUrl(args[0]) ==>
        userData == old(userData)[UrlKey := args[0]] && outbox == old(outbox) + [Reply(ChooseFormatText)]
    {
      if args == [] {
        outbox := outbox + [Reply(NoLinkText)];
        return;
      }
      var url := args[0];
      if !IsValidYoutubeUrl(url) {
        outbox := outbox + [Reply(InvalidLinkText)];
        return;
      }
      userData := userData[UrlKey := url];
      outbox := outbox + [Reply(ChooseFormatText)];
    }

    /** `button_callback` (bot.py:117-145): the help button shows help; a
        format button takes the pending link (once), announces the download
        and runs it. */
    method ButtonCallback(data: string, fileId: string, engine: (string, Options) -> EngineRun,
                          listing: seq<string>, t: Transport)
      returns (exit: Exit)
      modifies this`userData, this`files, this`outbox
      ensures userData == AfterPress(old(userData), data)
      ensures Decide(old(userData), data) == Help ==>
        outbox == old(outbox) + [ShowHelp] && files == old(files) && exit == Completed
      ensures Decide(old(userData), data) == MissingUrl ==>
        && outbox == old(outbox) + [Edit(Text(MissingUrlText))] && files == old(files)
        && exit == (if t.missingEditOk then Completed else Escaped(t.failure))
      ensures Decide(old(userData), data).Begin? ==>
        var url, fmt := Decide(old(userData), data).url, Decide(old(userData), data).format;
        var run := engine(url, EngineOptions(fileId, fmt));
        var r := Run(old(files) + run.written, listing, fileId, fmt, run.outcome, t);
        && outbox == old(outbox) + [Edit(Text(StartingText(fmt)))] + r.trace
        && exit == r.exit
        && files == AfterFinally(old(files) + run.written, locked, r.cleaned)
    {
      if data == HelpData {
        outbox := outbox + [ShowHelp];
        return Completed;
      }
      var url := PendingUrl(userData);
      if url.None? {
        outbox := outbox + [Edit(Text(MissingUrlText))];
        return if t.missingEditOk then Completed else Escaped(t.failure);
      }
      userData := userData - {UrlKey};
      var format := FormatOf(data);
      // A failure of this edit is logged and ignored (bot.py:142-143).
      outbox := outbox + [Edit(Text(StartingText(format)))];
      exit := ProcessDownload(url.value, format, fileId, engine, listing, t);
    }
  }
}
