# YouTube downloader bot: the download decision core in Dafny

This project models the decision core of a Telegram bot (`bot.py`) that
fetches YouTube media with yt-dlp and sends it back to the chat. It covers
five things:

- the link check run by `/download <link>`;
- the per-user pending-link slot that a format button consumes;
- the per-format engine options and the predicted output path;
- `process_download`, which resolves the artifact's path in three steps,
  enforces the 49 MiB ceiling, uploads, manages the status message, reports
  errors, and always cleans up in its `finally` block;
- the ordered substring ladder that turns an engine error into a message.

Layout, one module per component:

| file | module | what it holds |
|---|---|---|
| wrappers.dfy | `Wrappers` | `Option`, for `None` and `dict.get` |
| text.dfy | `Text` | Python's `sub in s` (`Contains`, proved equal to `Occurs`) and `os.path.basename` |
| youtube_url.dfy | `YoutubeUrl` | the link pattern (`RegexMatch`, an existential over the pattern's choices), the hand-written matcher `IsValidYoutubeUrl`, and the proof that they agree |
| error_text.dfy | `ErrorText` | the error-text ladder and its messages |
| download.dfy | `Download` | the filesystem (path to size), options, resolution, and one job as pure functions: `TryBlock` for the `try` block, `Handle` for the `except` clauses, `Run` for the whole job, plus the job's guarantees |
| session.dfy | `Session` | the pending slot as values, and class `Bot` (fields: `files`, `locked`, `userData`, `outbox`) whose methods are the imperative handlers; all but `DownloadCommand` are proved to equal the pure functions, and `DownloadCommand` states its new slot and reply directly |

Collaborators the model treats as inputs:

- **yt-dlp** is a function parameter `(url, Options) -> EngineRun`. A run
  names the files it wrote and how it ended: finished with the path from
  `prepare_filename` and an optional title, a `DownloadError`, a
  `FileNotFoundError`, or another exception, each with its text. A
  `FileNotFoundError` lands in the not-found clause (bot.py:291-293), like
  an artifact that cannot be located.
- **Each Telegram call site** has an oracle boolean in `Transport` saying
  whether the call succeeds. `Transport` also holds the text of the
  exception a failing call raises. `outbox` records every call attempted.
- **`os.listdir`** is a parameter `listing`, in the order the OS returns it.
  It does not have to agree with `files`; this is why the existence check at
  bot.py:220 has an effect. `Download.ResolvedPathExists` shows that when
  the listing does agree, resolution always yields an existing file.
- **`os.remove` raising `OSError`**: that error is logged and swallowed. It
  is modelled by the set `locked` of paths that cannot be removed.
- **`uuid4()`** is the parameter `fileId`.

Behaviour of bot.py the model keeps:

- The only marker of a not-yet-available video is the text `"Premiere"`;
  the ladder has no other case for live or unfinished streams.
- The not-found clause edits the status message and, unlike the other two
  clauses, sends no new message when that edit fails.
- An empty stored link counts as missing (`if not url`), and is then not
  deleted.
- `if downloaded_file_path:` skips an empty path.
- `os.path.exists("")` is false.

## Model

| member | source | states |
|---|---|---|
| `YoutubeUrl.ValidatorIsRegex` | bot.py:42-49 | the matcher accepts a link exactly when the pattern, anchored only at the start, matches it: an optional scheme, an optional `www.`, one of the three hosts, `.com` or `.be`, `/`, an optional lead (`watch?v=`, `embed/`, `v/`, or one or more non-newline characters then `?v=`), then 11 characters none of `& = % ?` |
| `YoutubeUrl.IsValidYoutubeUrl` | bot.py:42-49 | no contract of its own; specified by `YoutubeUrl.ValidatorIsRegex`, which proves it equal to the pattern's meaning |
| `YoutubeUrl.ScanQueryVIsQueryV` | bot.py:48 | the scan for `.+\?v=` succeeds exactly when some split has a newline-free `.+`, then `?v=`, then an id |
| `YoutubeUrl.MatchLeadIsLeadThenId` | bot.py:48 | the optional lead group followed by the id is matched exactly when some split of the remainder is a lead then an id |
| `YoutubeUrl.AnySuffixAccepted` | bot.py:49 | `re.match` anchors at the start only: any text may follow an accepted link |
| `YoutubeUrl.AnchoredAtStart` | bot.py:45-49 | a link that does not begin with `h`, `w` or `y` (or is empty) is rejected |
| `YoutubeUrl.AcceptsAssembled` | bot.py:45-48 | every link built from choices the pattern allows is accepted, whatever follows |
| `YoutubeUrl.AcceptsWatchLink` | bot.py:71 | `https://www.youtube.com/watch?v=dQw4w9WgXcQ` is accepted |
| `YoutubeUrl.AcceptsShortLink` | bot.py:92 | `https://youtu.be/dQw4w9WgXcQ` is accepted |
| `YoutubeUrl.RejectsVimeoLink` | bot.py:42-49 | `https://vimeo.com/12345` is rejected |
| `Text.ContainsIsOccurs` | bot.py:137 | the left-to-right substring scan agrees with "occurs at some index", the meaning of Python's `in` |
| `Text.BaseName` | bot.py:245 | the base name holds no `/`, is a suffix of the path, and is preceded by `/` when shorter than the path |
| `Text.BaseNameOfJoin` | bot.py:211 | the base name of `dir/name` is `name` |
| `ErrorText.Classify` | bot.py:273-282 | the ladder, in order: too-large exactly when the size marker occurs; unavailable exactly when it does not and "Video unavailable" does; private and premiere likewise, each after the earlier markers fail |
| `ErrorText.DownloadErrorMessage` | bot.py:273-282 | no contract of its own; specified by `ErrorText.Classify`, `ErrorText.GenericMessageOnlyWithoutMarkers`, `ErrorText.MessagesDistinguishKinds` and `ErrorText.PrivateAndUnavailableDiffer` |
| `ErrorText.GenericMessageOnlyWithoutMarkers` | bot.py:273-282 | the message is `❌ Download Error: ` plus the raw text exactly when none of the four markers occurs |
| `ErrorText.MessagesDistinguishKinds` | bot.py:273-282 | different categories always give different messages |
| `ErrorText.PrivateAndUnavailableDiffer` | bot.py:277-280 | a "Private video" error is classed private, a "Video unavailable" error unavailable, and their messages differ |
| `Download.CeilingIs49MiB` | bot.py:19-20 | the ceiling is 51380224 bytes |
| `Download.AfterCleanup` | bot.py:33-40 | cleanup removes at most the given path; an existing path not refused by the filesystem is gone; every other file keeps its size |
| `Download.AfterFinally` | bot.py:305-308 | no contract of its own; specified by `Download.ArtifactGoneOnEveryExit` and `Download.EngineFailureRemovesNothing` |
| `Download.CleanupIdempotent` | bot.py:33-40 | a second cleanup of the same path changes nothing |
| `Download.FormatOf` | bot.py:137 | video exactly when the callback data contains "video", otherwise audio |
| `Download.PredictedPath` | bot.py:193 | no contract of its own; specified by `Download.PredictedPathNamesJob` and `Session.ButtonsSelectFormats` |
| `Download.PredictedPathNamesJob` | bot.py:172-193 | the predicted file is `<file_id>.mp4` for video and `<file_id>.mp3` for audio, and its name starts with the job id |
| `Download.EngineOptions` | bot.py:161-190 | no playlists and the byte ceiling as a hint for both formats; audio writes to the predicted `.mp3` path and extracts mp3 at 192; video keeps the `<file_id>.%(ext)s` template, uses the mp4 selector ladder and merges into mp4 |
| `Download.FirstWithPrefix` | bot.py:208-213 | the index found is the first listed name starting with the prefix; none is found only when no name starts with it |
| `Download.Resolve` | bot.py:200-215 | the reported path if it exists; else the predicted path if it exists; else the first listed entry starting with the job id, joined to the download directory; nothing exactly when no entry starts with it |
| `Download.ResolvedPathExists` | bot.py:200-221 | with a listing that agrees with the filesystem, a resolved path exists |
| `Download.Deliver` | bot.py:220-269 | no contract of its own; specified by `Download.TryUploadsWithinCeiling`, `Download.UploadAttemptedIff`, `Download.OversizeIsRefused`, `Download.UploadIsResolvedArtifact` and `Download.DeliveryFailureShown` |
| `Download.TryBlock` | bot.py:195-269 | no contract of its own; specified by `Download.TryUploadsWithinCeiling`, `Download.MissingArtifactShown` and `Download.EngineFailureRemovesNothing` |
| `Download.Handle` | bot.py:271-303 | no contract of its own; specified by `Download.HandleIsTextOnly`, `Download.DownloadErrorShown`, `Download.UnexpectedErrorShown` and `Download.MissingArtifactShown` |
| `Download.Run` | bot.py:150-308 | no contract of its own; specified by `Download.NoUploadAboveCeiling`, `Download.UploadAttemptedIff`, `Download.ArtifactGoneOnEveryExit`, `Download.StatusDeletedOnlyAfterUpload`, `Download.UploadIsResolvedArtifact`, `Download.DeliveryFailureShown` and `Download.AudioJobEndToEnd` |
| `Download.FinallyAfterTry` | bot.py:224-230 | when the oversize refusal has already cleaned the artifact, the `finally` cleanup of the same path removes nothing more; the result is as if only the `finally` had cleaned |
| `Download.HandleIsTextOnly` | bot.py:271-303 | the `except` clauses only edit the status message or send text messages |
| `Download.TryUploadsWithinCeiling` | bot.py:219-266 | every upload in the `try` block names an existing file of at most the ceiling |
| `Download.NoUploadAboveCeiling` | bot.py:223-266 | no job ever uploads a file above 51380224 bytes or a missing file |
| `Download.UploadIsResolvedArtifact` | bot.py:238-266 | every upload of a job is of the resolved artifact, by `send_audio` or `send_video` as the format says, captioned with the title or "YouTube Download", with the artifact's base name as file name |
| `Download.UploadAttemptedIff` | bot.py:219-266 | an upload is attempted exactly when the engine finished, the resolved file exists, is within the ceiling, and the "uploading" edit succeeded |
| `Download.OversizeIsRefused` | bot.py:223-231 | a file above the ceiling gets the size message as the first call, no upload, and is still cleaned by the `finally` block |
| `Download.ArtifactGoneOnEveryExit` | bot.py:305-308 | on every exit path after the engine finished, an existing resolved file is what the `finally` block cleans; the file is gone unless removing it fails; no other file is touched |
| `Download.EngineFailureRemovesNothing` | bot.py:192-197 | when the engine raises, `downloaded_file_path` was never assigned and nothing is removed |
| `Download.StatusDeletedOnlyAfterUpload` | bot.py:268-269 | the status message is deleted only right after a successful upload, and always after one |
| `Download.DownloadErrorShown` | bot.py:284-289 | an engine download error edits the status message with the classified message; only if that edit fails is the message sent anew; the handler escapes only if both fail |
| `Download.UnexpectedErrorShown` | bot.py:295-303 | any other engine failure edits in the error text, and if that edit fails sends the generic message |
| `Download.DeliveryFailureShown` | bot.py:224-303 | a failing size edit, "uploading" edit, upload or delete raises into the catch-all handler with its text: the delivery calls are followed by the error edit, then by the short new message only if that edit fails; the handler escapes only if both fail |
| `Download.MissingArtifactShown` | bot.py:291-293 | a missing artifact, or a `FileNotFoundError` from the engine, gives exactly one edit with the not-found text and no fallback; a failed edit escapes |
| `Download.AudioJobEndToEnd` | bot.py:150-308 | an audio job whose engine leaves a 2 MiB `<file_id>.mp3` titled "Test Song", with every call succeeding: "uploading" edit, one audio upload with caption "Test Song" and file name `<file_id>.mp3`, status deleted, file removed |
| `Session.StoreThenTake` | bot.py:103-135 | storing a non-empty link, and so any link `/download` accepts, makes it the pending link; deleting the key leaves none; no other key of `user_data` changes the pending link |
| `Session.Decide` | bot.py:124-137 | no contract of its own; specified by `Session.HelpLeavesLinkAlone`, `Session.PendingLinkConsumedOnce`, `Session.NewerLinkWins` and `Session.ButtonsSelectFormats` |
| `Session.AfterPress` | bot.py:129-135 | a press that starts a download removes the pending key; any other press leaves the map as it was; no other key changes |
| `Session.PendingLinkConsumedOnce` | bot.py:129-135 | after `/download` stores a link, the first format press starts it and removes it; a second press finds nothing and changes nothing |
| `Session.HelpLeavesLinkAlone` | bot.py:124-126 | the help button neither starts a download nor touches the pending link |
| `Session.NewerLinkWins` | bot.py:103 | of two stored links, the next press starts the newer |
| `Session.ButtonsSelectFormats` | bot.py:107-108 | `download_video` selects video (`downloads/<id>.mp4`), `download_audio` selects audio (`downloads/<id>.mp3`) |
| `Session.Bot.CleanupFile` | bot.py:33-40 | the filesystem becomes `AfterCleanup` of the old one: a missing path is a no-op and the call never fails |
| `Session.Bot.ResolvePath` | bot.py:200-215 | the loop with `break` returns exactly `Resolve` of the current filesystem |
| `Session.Bot.DeliverArtifact` | bot.py:219-269 | the chat calls and the fault are those of `Deliver`; the file is cleaned at once exactly when it exists, is above the ceiling and the size message was shown; otherwise the filesystem is unchanged |
| `Session.Bot.TryDownload` | bot.py:195-269 | the chat calls, `downloaded_file_path` and the raised fault are those of `TryBlock`; the filesystem changes only by the oversize cleanup, exactly when the engine finished, the resolved file is above the ceiling and the size message was shown |
| `Session.Bot.ReportFault` | bot.py:271-303 | the chat calls and exit are those of `Handle` for the fault |
| `Session.Bot.RunJob` | bot.py:195-308 | on the filesystem the engine left, the chat calls and exit are those of `Run`, and the filesystem afterwards is `AfterFinally` of the path `Run` cleans |
| `Session.Bot.ProcessDownload` | bot.py:150-308 | the chat calls and exit are those of `Run` on the filesystem the engine left; the filesystem afterwards is that one with the `finally` cleanup applied |
| `Session.Bot.DownloadCommand` | bot.py:88-112 | no argument or an invalid link: only a reply, slot untouched; a valid link overwrites the slot and the format question is sent |
| `Session.Bot.ButtonCallback` | bot.py:117-145 | the help button shows help and changes nothing; a press with no pending link edits in the missing-link message and changes nothing else; otherwise the link is consumed, the "starting" edit is recorded (its failure is ignored), and the job runs as `ProcessDownload` |

## Left out

- Telegram transport internals are not modelled: `reply_text`, `edit_message_text`, `send_audio`/`send_video`, `delete_message` and keyboard construction. Only each call's success or failure is an input.
- `query.answer()` is not modelled; it is assumed to succeed.
- The failures of `help_command`'s edit and of the reply calls in `download_command` are not modelled.
- `start` and the help text are left out (bot.py:53-85): they are fixed text with no decisions in them.
- `os.listdir` raising (the download directory removed while the job runs, bot.py:209) is not modelled: `listing` is always a list. Such a `FileNotFoundError` would land in the not-found clause, the same as `EngineOutcome.FileNotFound`.
- yt-dlp internals are inputs, not modelled: `extract_info`, `prepare_filename`, and what the format selector and postprocessors mean (bot.py:187).
- `logger` and `progress_hooks` in the options are not modelled. The progress hook (bot.py:315-333) is an `async def` that the lambda at bot.py:167 calls without awaiting, so its body never runs; it is left out.
- The randomness of `uuid4` is out of scope: `fileId` is a parameter. Uniqueness across jobs is an assumption, not something proved here.
- Async scheduling, concurrent users, `main` and `run_polling` (bot.py:338-364) are not modelled. The model is one user's handlers run one at a time.
- The megabyte figure with two decimals in the oversize message (bot.py:228) is floating point. It is kept abstract as `SizeExceeded(sizeBytes)`.
- Environment loading, the token check and logging setup (bot.py:13-16, bot.py:24-29) are left out.
- File handles opened for upload (bot.py:243, bot.py:259) are not modelled. An `open` that fails on a file that vanished is not modelled either.
- The unused thumbnail lookup (bot.py:252-253) is left out.
- Directories inside the download directory are not modelled: `files` holds regular files only.
