# youtube-downloader core, modelled in Dafny

This project models the core logic of a small YouTube/media downloader. The program has two shells:
a PyQt desktop window (`downtube.py`) and a Streamlit page (`streamlit_downloader.py`). Both wrap the
`yt_dlp` library. The parts modelled, and what is proved about them, are these.

- **`sanitize_filename`** (`filename.dfy`, module `Filename`). Forbidden characters become `_`. Every
  whitespace run becomes one space, using Python's `str.isspace` set. The ends are stripped. A result
  longer than 150 characters is cut to 147 characters plus `...`.
  - Proved: the result is always clean (no forbidden character, no leading, trailing or doubled
    whitespace, at most 150 characters).
  - Proved: a name is returned unchanged exactly when it is already clean.
  - Proved: sanitising is idempotent.
  - Proved: each whitespace run between two other characters becomes exactly one space.
  - Proved: without truncation, only whitespace changes after replacement.
- **`get_format_options`** (`formats.dfy`, module `Formats`). The three-tier quality map and the
  mp4/m4a fallback chain.
- The web shell carries its own copies of `sanitize_filename` (streamlit_downloader.py:33-38) and
  `get_format_options` (streamlit_downloader.py:40-51). They are the same code as the desktop shell's,
  so one function models each pair.
- **The metadata step of `get_videos_info`** in both shells (`videoinfo.dfy`, module `VideoInfo`).
  - What `extract_info` returned or raised is an input.
  - Entries are flattened into an ordered item list.
  - Library errors are classified by substring.
  - The web version is related to the desktop version.
- **`DownloadWorker.run_download`** (`downloader.dfy`, module `Downloader`).
  - The process-wide stop event is a `StopEvent` object with a boolean field.
  - The worker is a method whose loop over the items keeps the source's `break` on a set flag. A folder
    failure ends that item's iteration early, which is the source's `continue`.
  - The progress hook raises when the flag is set.
  - The worker records every signal it emits, plus each call into yt_dlp, as a sequence of events.
  - The methods are proved equal to specification functions (`RunDownloadSpec`, `RunItems`, `ItemStep`,
    `RunHooks`).
  - The loop is a generic `Loop` over an iteration function, so its proofs do not depend on what an
    iteration does.
  - `download_facts.dfy` (module `DownloadFacts`) proves what those functions guarantee: one finish
    signal per item reached, in order and `True` only on success; one yt_dlp call per started item, into
    the right folder; no item started after the flag is seen; the closing status exactly when the flag
    is clear at the end. These are stated through three views of the signal sequence (finish signals,
    calls, closing status), each kept by one filter, `Only`.
- **`load_config`** (`config.dfy`, module `Config`). Existing keys are kept, the four settings are added
  when missing, and a missing or unreadable file gives the defaults.
- **The web shell's own logic** (`webshell.dfy`, module `WebShell`):
  - the `.mp3` rename in `download_video`;
  - the default selection;
  - the download loop, which reports a failing item and goes on with the next one. Its attempts and its
    progress updates are two tracks picked out of the page's events by one filter, `Picked`.

`text.dfy` (module `Text`) models the pieces of Python these need:
- `str.isspace`;
- substring `in`;
- `str(n)`;
- `s[:n]` and `rfind`;
- `posixpath.join` and `basename`;
- the `({k+1}/{total}): ` counter and status line that both shells print.

`wrappers.dfy` holds `Option` and `Result`.

**Oracles.** Everything the code cannot see in advance is an input:
- what `extract_info` returned or raised;
- for each item: the folder probe (`os.path.exists` and `os.makedirs`), the statuses yt_dlp passes to the
  progress hook, and how `ydl.download` would end;
- the stop requests from the window.

A stop request from the window thread is modelled at the points where the worker reads the flag: before
each item's check, before each hook invocation, and before the final check. At such a point, a request
that has landed makes the worker call `StopDownloadProcess` itself.

**How the stop flag behaves around a run, as the code has it:**
- `run_download` clears the flag first (downtube.py:163), so a flag set before the run starts has no
  effect on it.
- Once the flag is set, the run emits no closing summary at all (downtube.py:296-298). The only stop
  messages are those of the halted item (downtube.py:193-195) and of the stopped item
  (downtube.py:277-279).

## Model

| member | source | states |
|---|---|---|
| Text.Decimal | downtube.py:200 | `str(n)` of a natural number is a non-empty string of decimal digits whose value is `n`, with no leading zero |
| Text.Take | downtube.py:201 | `s[:n]` has length `min(|s|, n)` and is a prefix of `s` |
| Text.Join | downtube.py:206 | `os.path.join(dir, name)` is `name` when `name` is absolute; otherwise it is `dir` then `name`, with one `/` between them exactly when `dir` is non-empty and does not already end in `/` |
| Text.Basename | streamlit_downloader.py:213 | `os.path.basename(p)` is the suffix of `p` after its last slash: a suffix without `/`, preceded by `/` whenever it is not the whole path |
| Text.RFind | streamlit_downloader.py:127 | the index of the last occurrence of a character, or -1; no occurrence follows it |
| Text.IsSpace | downtube.py:104 | the characters that `\s` matches and `str.strip()` removes in a Python `str` |
| Text.Contains | downtube.py:275-284 | Python's substring test `p in s` |
| Text.Counter | downtube.py:200-201 | the `({k+1}/{total}): ` counter put in front of an item's title |
| Text.StartStatus | streamlit_downloader.py:206 | the status line `جاري تحميل ` plus the counter, the title cut to 50 characters and `...`, as both shells print it (also downtube.py:201) |
| Filename.ReplaceForbidden | downtube.py:103 | each of the nine forbidden characters becomes `_`; every other character is kept in place |
| Filename.Collapse | downtube.py:104 | `re.sub(r'\s+', " ", …)` gives a result no longer than its input that starts with whitespace iff the input does |
| Filename.Strip | downtube.py:104 | `.strip()` gives the slice between the leading and the trailing whitespace runs and has no whitespace at either end |
| Filename.Cleaned | downtube.py:103-104 | the replaced, collapsed and stripped name has no forbidden character, no doubled whitespace and no whitespace at the ends |
| Filename.Sanitize | downtube.py:102-107 | the result is clean and at most 150 long; up to 150 it is the cleaned name; beyond 150 it is the cleaned name's first 147 characters followed by `...` |
| Filename.CollapseIdentity | downtube.py:104 | a string with only plain spaces, never adjacent, is left unchanged by the collapse |
| Filename.SanitizeFixedPoints | downtube.py:102-107 | a name is returned unchanged exactly when it is clean, so a clean name of exactly 150 characters is not truncated |
| Filename.SanitizeIdempotent | downtube.py:102-107 | sanitising twice equals sanitising once |
| Filename.CollapseKeepsText | downtube.py:104 | the collapse keeps every non-whitespace character, in order |
| Filename.CollapseClean | downtube.py:104 | after the collapse the only whitespace is a plain space, never two in a row, and no forbidden character is introduced |
| Filename.CollapseSplit | downtube.py:104 | where the text before a point ends in a non-whitespace character, the collapse works on each side independently |
| Filename.CollapseRun | downtube.py:104 | a non-empty whitespace run between two non-whitespace characters (or an end of the string) becomes exactly one space |
| Filename.StripKeepsText | downtube.py:104 | stripping removes whitespace only |
| Filename.SanitizeKeepsText | downtube.py:103-107 | without truncation the sanitised name has the same non-whitespace characters as the input after replacement |
| Formats.TierExpression | downtube.py:28-33 | a known tier gives its map entry; anything else gives the medium entry |
| Formats.FormatOptions | downtube.py:27-40 | never empty; `mp3` gives `bestaudio/best`; any other type gives the tier's map entry, or the medium entry for an unknown tier, followed by the mp4/m4a fallback chain |
| Formats.UnknownQualityIsMedium | downtube.py:33 | an unrecognised quality gives the same string as `متوسطة` |
| Formats.AudioIgnoresQuality | downtube.py:35-37 | for `mp3` every quality gives `bestaudio/best` |
| Formats.VideoCapsHeight | downtube.py:28-40 | every video expression starts with `best[height<=N]`, N being 360, 720 or 1080 by tier |
| Formats.TiersDiffer | downtube.py:28-32 | the three tiers select three different video expressions |
| VideoInfo.EntryItem | downtube.py:67-74 | an entry with a truthy id gives an item with that id, the watch URL built from it, and the entry's title or `مرئية بدون عنوان` when it has none |
| VideoInfo.PlaylistItems | downtube.py:63-74 | the loop over entries yields at most one item per entry, each with a non-empty id and its watch URL |
| VideoInfo.SingleItem | downtube.py:75-83 | a single video yields one item exactly when its id is truthy, with `webpage_url` when present, and its title or `مرئية بدون عنوان` when it has none |
| VideoInfo.ResolveErrorMessage | downtube.py:91-97 | "Unsupported URL" gives the message naming the url and is checked first; then "Video unavailable"; otherwise the fetch-error prefix plus the original text |
| VideoInfo.GetVideosInfo | downtube.py:56-99 | succeeds iff a truthy dictionary has non-empty entries or an `id` key; with entries the videos are the flattened entries and the title is the dictionary's or `قائمة تشغيل غير مسماة`; otherwise the videos are the single-video items and no title; a falsy or unrecognised dictionary gives the "unexpected error" prefix; library errors are classified |
| VideoInfo.GetVideosInfoWeb | streamlit_downloader.py:65-96 | fails iff the call raised or returned nothing, and then with the single web prefix; with entries the videos are the flattened entries and the title is the dictionary's or `قائمة تشغيل`; with an `id` key the single-video items; otherwise no videos; a title comes back iff there are entries |
| VideoInfo.PlaylistItemsAppend | downtube.py:65-74 | flattening distributes over concatenation, so items keep entry order |
| VideoInfo.PlaylistItemsSingle | downtube.py:66-74 | one entry yields its item iff it is truthy with a truthy id |
| VideoInfo.PlaylistItemsComplete | downtube.py:65-74 | an item is produced iff some usable entry produces it |
| VideoInfo.UnsupportedUrlNamesUrl | downtube.py:91-93 | an unsupported URL is reported with the URL, even when "Video unavailable" also appears |
| VideoInfo.OtherErrorsKeepText | downtube.py:96-99 | any other library error keeps the library's text in the message |
| VideoInfo.WebAgreesWithDesktop | streamlit_downloader.py:72-94 | where the desktop step succeeds, the web step returns the same items in the same order, and the same title when the dictionary has one; where the desktop step rejects the shape, the web step returns an empty list |
| Downloader.StopEvent.constructor | downtube.py:19 | the event starts cleared |
| Downloader.ResetStopEvent | downtube.py:21-22 | clears the flag |
| Downloader.StopDownloadProcess | downtube.py:24-25 | sets the flag |
| Downloader.ProgressHook | downtube.py:219-235 | the hook raises iff the flag is set, with the stop phrase; otherwise it only emits progress and log signals |
| Downloader.RunHooks | downtube.py:219-221 | during one download call the flag never clears; a set flag at a hook invocation ends the call with the stop error and nothing further emitted; with the flag clear the call ends as the library's call would |
| Downloader.TransferOutcome | downtube.py:270-294 | success iff the call completed; "stopped" iff a `DownloadError` carries the stop phrase; otherwise a `DownloadError` mentioning a read timeout gives the timeout advice, else one mentioning HTTP 403 gives the access-denied advice, else the library's text, each after the download-error opening naming the title; any other exception gives the unexpected-error opening and its text |
| Downloader.OutcomeEvents | downtube.py:273-294 | the signals closing an item: for a halt, the stop status and log (downtube.py:193-195); for a stop, failure or folder failure, a status or error and a log line; in every case one finish signal last, `True` only on success |
| Downloader.StartEvents | downtube.py:200-201 | the log line and the status line that open an item |
| Downloader.OutputDir | downtube.py:203-216 | `final_download_dir`: the base folder joined with the sanitised playlist title when that title is truthy, else the base folder |
| Downloader.CallFor | downtube.py:237-240 | the yt_dlp call for an item: its URL, the output template under `OutputDir`, and the job's format |
| Downloader.Loop | downtube.py:190-196 | a `for` loop with `break` over items `k`, `k + 1`, ... reaches at least one item when there is one and never more items than remain |
| Downloader.TransferStep | downtube.py:237-294 | a started item: the yt_dlp call into the output folder with the job's format, the hook's signals, and the signals of its ending |
| Downloader.ItemStep | downtube.py:191-294 | one iteration: the stop check with `break`, the start signals, the playlist folder with `continue` on failure, then the download |
| Downloader.RunItems | downtube.py:190-294 | the `for` loop over the items, as `Loop` over the iterations |
| Downloader.PlanOf | downtube.py:165-182 | a non-empty selection runs over exactly the selection, with the override title and the format for the quality and type; otherwise a failed lookup aborts with the fetch-error message, an empty result aborts with the no-videos message, and a non-empty one runs over its videos with no title; an abort emits one error and the log line `فشل: ` plus that error |
| Downloader.RunDownloadSpec | downtube.py:162-298 | the whole run: the plan, the loop entered with the flag cleared, and the closing status and log when the flag is clear at the end |
| Downloader.DriveDownload | downtube.py:270-272 | the download call with its hook invocations leaves the flag, the signals and the ending that `RunHooks` specifies |
| Downloader.Download | downtube.py:237-294 | a started item's call, hook signals and closing signals are those of `TransferStep` |
| Downloader.DownloadItem | downtube.py:198-294 | one iteration after the stop check (start signals, folder decision with `continue` on failure, download) is `ItemStep` |
| Downloader.Iterate | downtube.py:191-294 | one pass of the loop's body, the stop check included, leaves the flag and emits the events of `ItemStep`, and reports a halt exactly when `ItemStep` halts |
| Downloader.DownloadItems | downtube.py:190-294 | the `for` loop with its `break` emits the events and leaves the flag that `RunItems` specifies |
| Downloader.RunDownload | downtube.py:162-298 | the whole run, whatever the flag was before, emits the events and leaves the flag that `RunDownloadSpec` specifies |
| DownloadFacts.ReportsShape | downtube.py:191-294 | the expected finish signals are one per outcome, for the item in the same position, `True` exactly for a success |
| DownloadFacts.StartedCallsShape | downtube.py:203-272 | the expected calls are at most one per outcome, each for one of the items, into the job's folder with the job's format |
| DownloadFacts.SummaryShows | downtube.py:296-298 | the closing status is among the signals exactly when the summary view of them is not empty |
| DownloadFacts.OutcomeSignals | downtube.py:273-294 | each item ending emits exactly one finish signal, last, `True` only on success, and no call or closing status |
| DownloadFacts.TransferStepStarts | downtube.py:270-294 | a download that is started ends as a success, a stop or a failure, never as halted or as a folder failure |
| DownloadFacts.TransferStepView | downtube.py:237-294 | a started item makes exactly one yt_dlp call, for its own URL, and emits one finish signal, `True` only on success |
| DownloadFacts.ItemStepView | downtube.py:191-294 | every item reached emits exactly one finish signal, `True` only on success, calls yt_dlp iff it is started, and never emits the closing status |
| DownloadFacts.ItemStepHalts | downtube.py:191-216 | an item is halted iff the flag is set at its check; a set flag stays set; a folder failure leaves it clear |
| DownloadFacts.LoopView | downtube.py:190-196 | a loop whose every iteration emits what a view keeps of its item emits, in item order, what the view keeps of every item reached |
| DownloadFacts.RunItemsView | downtube.py:190-294 | the loop's finish signals are, in item order, one per item reached, `True` exactly for the successes; its calls are one per started item, in item order; it never emits the closing status |
| DownloadFacts.LoopHalts | downtube.py:190-196 | a loop whose halted iterations leave the flag set stops only on its last item reached, and only by halting when items remain |
| DownloadFacts.RunItemsHalts | downtube.py:191-196 | only the last item reached can be halted; the loop stops before the last item only by halting; a halted item leaves the flag set |
| DownloadFacts.RunItemsFlagSticks | downtube.py:191-196 | a flag already set halts the next item and nothing after it runs |
| DownloadFacts.RunDownloadView | downtube.py:162-298 | what each view keeps of a whole run is what it keeps of the loop, plus the closing status when the flag is clear at the end |
| DownloadFacts.AbortedRunSignals | downtube.py:170-182 | a run that fails to resolve emits an error and then the log line `فشل: ` plus that error, and no item, call, finish signal or closing status |
| DownloadFacts.RunDownloadSignals | downtube.py:162-298 | a run that reaches the loop reports each item reached, in order, calls yt_dlp once per started item, and emits the closing status iff the flag is clear at the end |
| DownloadFacts.ResolvedRunsWriteUnderBase | downtube.py:178 | a run resolved from the URL writes every file directly into the base folder |
| DownloadFacts.PlaylistRunsWriteUnderCollection | downtube.py:203-216 | a selection run with a truthy collection title writes every file into `base/sanitize(title)` |
| DownloadFacts.StopBeforeFirstItem | downtube.py:191-196 | a stop before the first check halts that item, downloads nothing, and leaves out the closing status |
| DownloadFacts.HookStops | downtube.py:219-221 | the flag ends set iff it was set or a stop landed before some hook invocation, and then the call ends with the stop error |
| DownloadFacts.StopDuringDownload | downtube.py:275-279 | a stop during an item's download ends that item as stopped, not failed |
| DownloadFacts.NoStopNoInterference | downtube.py:219-221 | without a stop request the hook never interferes with the download call's ending |
| DownloadFacts.PrefixNamesItem | downtube.py:280-294 | the download-error and unexpected-error openings put the item's title into the message |
| DownloadFacts.FailureNamesItem | downtube.py:280-294 | every failure message names the item |
| DownloadFacts.TimeoutBeforeForbidden | downtube.py:276-286 | "Read timed out" is reported as a timeout even when "HTTP Error 403" also appears; the stop phrase wins over both |
| DownloadFacts.OtherFailuresKeepText | downtube.py:281 | any other error keeps the library's text in the message |
| Config.Defaults | downtube.py:637-640 | the defaults hold exactly the four settings |
| Config.DownloaderApp.constructor | downtube.py:480-488 | constructing the window loads its settings, leaving them equal to `LoadedConfig` of the file |
| Config.LoadedConfig | downtube.py:625-640 | a loaded object keeps every key and value it has and gains exactly the missing settings at their defaults; a missing or unreadable file gives the defaults |
| Config.SetDefault | downtube.py:630-633 | one `if key not in config` step adds the key's default exactly when the key is missing, keeping the file's value otherwise |
| Config.DownloaderApp.LoadConfig | downtube.py:625-640 | the key-by-key completion leaves `config` equal to `LoadedConfig` |
| Config.LoadedHasAllKeys | downtube.py:630-633 | after loading, all four settings are present |
| Config.LoadStable | downtube.py:629-634 | loading what a load produced changes nothing, and a file that already has the four settings is taken as it is |
| WebShell.Mp3Name | streamlit_downloader.py:126-127 | the result ends in `.mp3`; before it stands the name up to, not including, its last dot, and no dot follows that one; a name without a dot gets `.mp3` appended |
| WebShell.Mp3NameStable | streamlit_downloader.py:127 | renaming a renamed name changes nothing |
| WebShell.Mp3NameKeepsMp3 | streamlit_downloader.py:127 | a name already ending in `.mp3` is left as it is |
| WebShell.DownloadVideo | streamlit_downloader.py:98-131 | succeeds iff the folder call and yt_dlp succeed; a non-mp3 result is the prepared name unchanged, an mp3 result its `.mp3` rename; a folder error escapes unwrapped; a yt_dlp error gets the download-error prefix and keeps its text |
| WebShell.DefaultSelectionAsWritten | streamlit_downloader.py:187-195 | with several videos every index in order, otherwise `[0]` |
| WebShell.EmptyListBreaksSelection | streamlit_downloader.py:194-196 | an empty playlist is accepted with an empty list, and the default selection then names index 0 of it |
| WebShell.DefaultSelection | streamlit_downloader.py:187-195 | every index in order, one per video |
| WebShell.DefaultSelectionAgrees | streamlit_downloader.py:187-195 | the corrected selection equals the one as written exactly when there is at least one video |
| WebShell.DefaultSelectionInRange | streamlit_downloader.py:187-195 | the corrected default selection names only existing videos |
| WebShell.Shown | streamlit_downloader.py:207-223 | what the page shows once `download_video` returns or raises: the button and success line when the file exists, or one error line |
| WebShell.FailureLine | streamlit_downloader.py:223 | the error line `❌ خطأ في {title}: {e}` |
| WebShell.ShownReports | streamlit_downloader.py:207-223 | a failed item shows one error carrying the exception text; a successful one shows the button and the success line iff its file exists, and no error |
| WebShell.WebItem | streamlit_downloader.py:204-225 | one position of the loop: the status line, the attempt with the video's url and format, what `Shown` shows, and the bar update |
| WebShell.WebItems | streamlit_downloader.py:204-225 | the per-position events of the web download loop from position `i` on, one `WebItem` block per selected index, in order |
| WebShell.ShowPosition | streamlit_downloader.py:204-225 | one pass of the loop's body emits the status line, the attempt, what `WebItem` shows and the bar update |
| WebShell.DownloadSelected | streamlit_downloader.py:198-227 | the loop emits the per-item events of `WebItems`, then the closing status |
| WebShell.WebItemSignals | streamlit_downloader.py:204-225 | each position makes exactly one attempt for its video and one progress update, whatever happens |
| WebShell.WebItemsAttemptAll | streamlit_downloader.py:204-227 | every selected index is attempted exactly once, in selection order, failures or not |
| WebShell.WebItemsProgress | streamlit_downloader.py:204-225 | the progress bar moves to `(i+1)/total` after position `i` |
| WebShell.DownloadSelectedAttempts | streamlit_downloader.py:198-227 | a whole pass attempts every selected video once, in order; the bar reaches `total/total`; the closing status comes last |
| WebShell.DefaultRunAttemptsEveryVideo | streamlit_downloader.py:187-227 | with the default selection every listed video is attempted once, in list order |

## Left out

- The Qt window `YouTubeDownloaderApp` is not modelled: widgets, stylesheet, message boxes, signal wiring
  and button enabling are presentation only. Out of its methods, only `load_config` is modelled, with
  the call to it from `__init__`.
- Threads are not modelled. The `QThread` and the cross-thread use of the stop event appear only as stop
  requests at the points where the worker reads the flag.
- The yt_dlp calls (`extract_info`, `download`, `prepare_filename`) are inputs. So are their option
  dictionaries: subtitles, post-processors, retries and timeouts only configure the library.
- Downloader.RunHooks: the model assumes that the hook's stop exception reaches the worker as a
  `DownloadError` whose text contains the stop phrase, as yt_dlp reports it. Other wrappings by the
  library are not modelled.
- Downloader.ProgressHook: the percentage `int((downloaded/total)*100)` and the base name of the
  reported file are inputs. The float arithmetic behind them is not modelled.
- The web progress fraction `(idx+1)/total` is kept as the pair `(idx + 1, total)`, because it is a
  float. The MIME type of the download button is not modelled.
- `check_ffmpeg_installed`, `save_config`, `check_and_create_download_dir` and the Streamlit page layout
  are not modelled. They are I/O and presentation.
- Filesystem and JSON I/O appear only through their results:
  - `os.path.exists` with `os.makedirs` is a `DirProbe`;
  - the web shell's `os.makedirs` is an optional error;
  - `json.load` is a `ConfigSource`;
  - the existence of the downloaded file is a boolean.
- Config.LoadedConfig: a `config.json` holding valid JSON that is not an object is treated as unreadable.
  Python would handle some such documents differently, for example a list that happens to contain the
  four key names. The message `load_config` prints on failure is not modelled.
- VideoInfo.GetVideosInfo: a key present with the JSON value `null` is treated as missing for titles and
  `webpage_url`. A null `id` behaves like an empty one, which the model represents as `Some("")`.
- Text.Join and Text.Basename follow `posixpath`. The desktop shell targets Windows as well
  (downtube.py:115-124), where `ntpath` also treats `\` as a separator and handles drive letters; those
  are not modelled.
- Downloader.RunDownload: the branch at downtube.py:184-188 (no videos left after the earlier checks) is
  not modelled. It cannot be reached, because both ways into the loop already guarantee a non-empty
  list.
- WebShell.DownloadSelected takes any in-range selection. With several videos, the user's edits to the
  multiselect are an input. The page ensures those indices exist, and the corrected default selection
  guarantees it (`WebShell.DefaultSelectionInRange`).

## Findings

| source | as written | input that shows it | evidently intended | confidence | as-written member | corrected member |
|---|---|---|---|---|---|---|
| streamlit_downloader.py:194-196 | `selected_videos = [0]` whenever there are fewer than two videos, followed by `info['videos'][0]['title']` | an `extract_info` dictionary with no truthy `id` whose `entries` are empty or hold no usable entry; the web `get_videos_info` returns an empty list without raising, and reading index 0 raises `IndexError` | with no videos, nothing is selected | high that the index is out of range; not executed | WebShell.EmptyListBreaksSelection | WebShell.DefaultSelection |
