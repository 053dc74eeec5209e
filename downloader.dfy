/**
 * The desktop shell's download worker: `DownloadWorker.run_download`, the progress hook it installs, and
 * the process-wide stop event behind `reset_stop_event` and `stop_download_process`.
 *
 * Signals are recorded, in emission order, as a sequence of events; the yt_dlp call is recorded as a
 * `DownloadCall` event. Everything the worker cannot see in advance comes from an environment: what
 * `extract_info` did, what each item's directory probe, progress reports and download call did, and at
 * which reads of the stop flag a `stop_download_process()` from the interface thread had landed.
 */
module Downloader {
  import opened Wrappers
  import opened Text
  import opened Filename
  import opened Formats
  import opened VideoInfo

  /** `stop_event`, the module-level `threading.Event`. */
  class StopEvent {
    var isSet: bool

    /** `threading.Event()` starts cleared. */
    constructor ()
      ensures !isSet
    {
      isSet := false;
    }
  }

  /** `reset_stop_event()`. */
  method ResetStopEvent(ev: StopEvent)
    modifies ev
    ensures !ev.isSet
  {
    ev.isSet := false;
  }

  /** `stop_download_process()`. */
  method StopDownloadProcess(ev: StopEvent)
    modifies ev
    ensures ev.isSet
  {
    ev.isSet := true;
  }

  /**
   * The dictionary yt_dlp passes to the progress hook. `percent` is `int((downloaded/total)*100)` when the
   * total is known and `None` otherwise. `file` is what the hook's log line names: the base name of the
   * reported file for `downloading` and `finished`, and the reported file name as it is for `error`.
   */
  datatype HookStatus =
    | Downloading(percent: Option<int>, file: string)
    | HookFinished(file: string)
    | HookError(file: string)
    | OtherStatus

  /** One invocation of the hook; `userStop` says that a stop request landed just before it. */
  datatype HookCall = HookCall(userStop: bool, status: HookStatus)

  /** How `ydl.download([url])` would end if the hook never raised. */
  datatype LibResult = Completed | DownloadError(text: string) | OtherError(text: string)

  /** The playlist folder: it already exists, `os.makedirs` creates it, or `os.makedirs` raises `OSError`. */
  datatype DirProbe = DirExists | DirCreated | DirCreateFailed(text: string)

  /** Everything outside the worker that shapes the handling of one item. */
  datatype ItemEnv = ItemEnv(stopBeforeCheck: bool, dir: DirProbe, calls: seq<HookCall>, result: LibResult)

  /** The environment of a whole run; `items(k)` is the environment of the k-th item. */
  datatype RunEnv = RunEnv(extracted: Extracted, items: nat -> ItemEnv, stopBeforeEnd: bool)

  /** The worker's constructor arguments that the loop reads (subtitles only change yt_dlp's options). */
  datatype Request = Request(url: string, base: string, quality: string, fileType: string,
                             selected: Option<seq<Item>>, playlistOverride: Option<string>)

  /** A signal of the worker, or the call into yt_dlp with its output template and format. */
  datatype Event =
    | Progress(percent: int, file: string)
    | Status(text: string)
    | Log(text: string)
    | Finished(title: string, ok: bool)
    | Error(text: string)
    | DownloadCall(url: string, outtmpl: string, format: string)

  /** What the progress hook does: raise an exception with a message, or emit signals. */
  datatype HookReply = Raise(text: string) | Emit(events: seq<Event>)

  /** The effect of the download call on the flag, the signals emitted by the hook, and how the call ended. */
  datatype Transfer = Transfer(flag: bool, events: seq<Event>, result: LibResult)

  /**
   * The fate of one item: not started because the flag was set (`Halted`), its folder could not be
   * created, or it was started and then succeeded, was stopped, or failed.
   */
  datatype Outcome = Halted | DirFailed(message: string) | Succeeded | Stopped | Failed(message: string)

  datatype Step = Step(flag: bool, events: seq<Event>, outcome: Outcome)

  /** The settings the loop works with: base folder, format string and effective playlist title. */
  datatype Job = Job(base: string, format: string, playlistTitle: Option<string>)

  /** The state after a run or part of one: the flag, the events emitted and the outcome of each item reached. */
  datatype Run = Run(flag: bool, events: seq<Event>, outcomes: seq<Outcome>)

  /** Before the loop: nothing to download, with the events emitted, or a job and its items. */
  datatype Plan = Abort(events: seq<Event>) | Go(job: Job, items: seq<Item>)

  const StopPhrase := "تم إيقاف التحميل من قبل المستخدم"
  const StopText := StopPhrase + "."
  const StoppedStatus := "تم إيقاف التحميل."
  const AllDone := "اكتملت جميع التحميلات المجدولة."
  const NoVideosText := "لم يتم العثور على معلومات المرئية للتحميل."
  const FailPrefix := "فشل: "
  const Template := "%(title)s.%(ext)s"
  const TimeoutAdvice := "انتهت مهلة الاتصال. حاول مرة أخرى أو تحقق من اتصالك بالإنترنت."
  const ForbiddenAdvice := "خطأ 403 - الوصول مرفوض. قد يكون المرئية خاصًا أو محظورًا."

  function StartLog(k: nat, total: nat, title: string): string {
    "بدء تحميل " + Counter(k, total) + title
  }

  function DirCreatedLog(path: string): string {
    "تم إنشاء مجلد قائمة التشغيل: " + path
  }

  function DirFailMessage(e: string): string {
    "فشل في إنشاء مجلد قائمة التشغيل: " + e
  }

  function ItemStoppedText(title: string): string {
    "توقف تحميل: " + title
  }

  function DownloadErrorPrefix(title: string): string {
    "خطأ في تحميل " + title + ": "
  }

  function UnexpectedErrorPrefix(title: string): string {
    "خطأ غير متوقع أثناء تحميل " + title + ": "
  }

  /** The log line and the status line that open item `k` of `total`. */
  function StartEvents(k: nat, total: nat, title: string): seq<Event> {
    [Log(StartLog(k, total, title)), Status(StartStatus(k, total, title))]
  }

  /** `custom_progress_hook(d)` with the flag reading `stopSet`. */
  function ProgressHook(stopSet: bool, status: HookStatus): (h: HookReply)
    ensures h.Raise? <==> stopSet
    ensures h.Raise? ==> Contains(h.text, StopPhrase)
    ensures h.Emit? ==> forall e :: e in h.events ==> e.Progress? || e.Log?
  {
    if stopSet then
      assert StopPhrase <= StopText;
      Raise(StopText)
    else
      match status
      case Downloading(percent, file) => if percent.Some? then Emit([Progress(percent.value, file)]) else Emit([])
      case HookFinished(file) => Emit([Progress(100, file), Log("اكتمل تحميل: " + file)])
      case HookError(file) => Emit([Log("خطأ أثناء تحميل " + file)])
      case OtherStatus => Emit([])
  }

  /**
   * yt_dlp invoking the hook on `calls[j..]`: each invocation first sees any stop request that landed
   * before it; the first invocation that sees the flag set raises, which ends the call with that error.
   */
  function RunHooks(flag: bool, calls: seq<HookCall>, j: nat, lib: LibResult): (t: Transfer)
    requires j <= |calls|
    ensures flag ==> t.flag
    ensures t.flag ==> flag || t.result == DownloadError(StopText)
    ensures flag && j < |calls| ==> t.result == DownloadError(StopText) && t.events == []
    ensures !t.flag ==> t.result == lib
    ensures forall e :: e in t.events ==> e.Progress? || e.Log?
    decreases |calls| - j
  {
    if j == |calls| then Transfer(flag, [], lib)
    else
      var f := flag || calls[j].userStop;
      match ProgressHook(f, calls[j].status)
      case Raise(text) => Transfer(f, [], DownloadError(text))
      case Emit(es) =>
        var rest := RunHooks(f, calls, j + 1, lib);
        Transfer(rest.flag, es + rest.events, rest.result)
  }

  /** The `except` clauses around `ydl.download`: how a started item ends. */
  function TransferOutcome(title: string, result: LibResult): (o: Outcome)
    ensures o.Succeeded? <==> result.Completed?
    ensures o.Stopped? <==> result.DownloadError? && Contains(result.text, StopPhrase)
    ensures o.Succeeded? || o.Stopped? || o.Failed?
    ensures result.DownloadError? && !Contains(result.text, StopPhrase) && Contains(result.text, "Read timed out") ==>
      o == Failed(DownloadErrorPrefix(title) + TimeoutAdvice)
    ensures (result.DownloadError? && !Contains(result.text, StopPhrase) && !Contains(result.text, "Read timed out")
             && Contains(result.text, "HTTP Error 403")) ==> o == Failed(DownloadErrorPrefix(title) + ForbiddenAdvice)
    ensures (result.DownloadError? && !Contains(result.text, StopPhrase) && !Contains(result.text, "Read timed out")
             && !Contains(result.text, "HTTP Error 403")) ==> o == Failed(DownloadErrorPrefix(title) + result.text)
    ensures result.OtherError? ==> o == Failed(UnexpectedErrorPrefix(title) + result.text)
  {
    match result
    case Completed => Succeeded
    case DownloadError(text) =>
      if Contains(text, StopPhrase) then Stopped
      else if Contains(text, "Read timed out") then Failed(DownloadErrorPrefix(title) + TimeoutAdvice)
      else if Contains(text, "HTTP Error 403") then Failed(DownloadErrorPrefix(title) + ForbiddenAdvice)
      else Failed(DownloadErrorPrefix(title) + text)
    case OtherError(text) => Failed(UnexpectedErrorPrefix(title) + text)
  }

  /** The signals that close an item; each ends with the item's one `download_finished` signal. */
  function OutcomeEvents(title: string, o: Outcome): seq<Event> {
    match o
    case Halted => [Status(StoppedStatus), Log(StopText), Finished(title, false)]
    case Succeeded => [Finished(title, true)]
    case Stopped => [Status(ItemStoppedText(title)), Log(ItemStoppedText(title)), Finished(title, false)]
    case DirFailed(m) => [Error(m), Log(m), Finished(title, false)]
    case Failed(m) => [Error(m), Log(m), Finished(title, false)]
  }

  predicate Started(o: Outcome) {
    o.Succeeded? || o.Stopped? || o.Failed?
  }

  /** `final_download_dir`: the sanitised playlist folder when a truthy playlist title is in effect. */
  function OutputDir(job: Job): string {
    if Truthy(job.playlistTitle) then Join(job.base, Sanitize(job.playlistTitle.value)) else job.base
  }

  function CallFor(job: Job, item: Item): Event {
    DownloadCall(item.url, Join(OutputDir(job), Template), job.format)
  }

  /** A started item: the download call, the hook's signals, and the signals of its outcome. */
  function TransferStep(job: Job, item: Item, before: seq<Event>, env: ItemEnv): Step {
    var t := RunHooks(false, env.calls, 0, env.result);
    var o := TransferOutcome(item.title, t.result);
    Step(t.flag, before + [CallFor(job, item)] + t.events + OutcomeEvents(item.title, o), o)
  }

  /** One iteration of the `for` loop over the items, item `k` of `total`, with the flag at `flag`. */
  function ItemStep(job: Job, k: nat, total: nat, item: Item, flag: bool, env: ItemEnv): Step {
    var f := flag || env.stopBeforeCheck;
    if f then Step(f, OutcomeEvents(item.title, Halted), Halted)
    else
      var start := StartEvents(k, total, item.title);
      if Truthy(job.playlistTitle) then
        match env.dir
        case DirCreateFailed(e) =>
          Step(f, start + OutcomeEvents(item.title, DirFailed(DirFailMessage(e))), DirFailed(DirFailMessage(e)))
        case DirCreated => TransferStep(job, item, start + [Log(DirCreatedLog(OutputDir(job)))], env)
        case DirExists => TransferStep(job, item, start, env)
      else TransferStep(job, item, start, env)
  }

  /**
   * A `for` loop over items `k`, `k + 1`, ... of `n` that stops after the first halted item (`break`);
   * `body(i, flag)` is what the iteration for item `i` does when it is entered with the flag at `flag`.
   */
  function Loop(body: (nat, bool) -> Step, n: nat, k: nat, flag: bool): (r: Run)
    requires k <= n
    ensures k + |r.outcomes| <= n
    ensures k < n ==> |r.outcomes| > 0
    decreases n - k
  {
    if k == n then Run(flag, [], [])
    else
      var st := body(k, flag);
      if st.outcome.Halted? then Run(st.flag, st.events, [Halted])
      else
        var rest := Loop(body, n, k + 1, st.flag);
        Run(rest.flag, st.events + rest.events, [st.outcome] + rest.outcomes)
  }

  /** The iterations of `run_download`'s loop over `items`. */
  function Iterations(job: Job, items: seq<Item>, env: nat -> ItemEnv): (nat, bool) -> Step {
    (i: nat, flag: bool) =>
      if i < |items| then ItemStep(job, i, |items|, items[i], flag, env(i)) else Step(flag, [], Halted)
  }

  /** The loop of `run_download` from item `k` on. */
  function RunItems(job: Job, items: seq<Item>, k: nat, flag: bool, env: nat -> ItemEnv): Run
    requires k <= |items|
  {
    Loop(Iterations(job, items, env), |items|, k, flag)
  }

  /** What `run_download` does before its loop: pick the items and the playlist title, or give up. */
  function PlanOf(req: Request, env: RunEnv): (p: Plan)
    ensures p.Go? ==> |p.items| > 0
    ensures req.selected.Some? && |req.selected.value| > 0 ==>
      p == Go(Job(req.base, FormatOptions(req.quality, req.fileType), req.playlistOverride), req.selected.value)
    ensures !(req.selected.Some? && |req.selected.value| > 0) ==>
      var info := GetVideosInfo(req.url, env.extracted);
      && (info.Err? ==> p == Abort([Error(FetchErrorPrefix + info.error), Log(FailPrefix + FetchErrorPrefix + info.error)]))
      && (info.Ok? && info.value.videos == [] ==> p == Abort([Error(NoVideosText), Log(FailPrefix + NoVideosText)]))
      && (info.Ok? && info.value.videos != [] ==>
            p == Go(Job(req.base, FormatOptions(req.quality, req.fileType), None), info.value.videos))
    ensures p.Abort? ==> |p.events| == 2 && p.events[0].Error? && p.events[1] == Log(FailPrefix + p.events[0].text)
  {
    var format := FormatOptions(req.quality, req.fileType);
    if req.selected.Some? && |req.selected.value| > 0 then
      Go(Job(req.base, format, req.playlistOverride), req.selected.value)
    else
      match GetVideosInfo(req.url, env.extracted)
      case Err(e) =>
        AppendAssoc(FailPrefix, FetchErrorPrefix, e);
        Abort([Error(FetchErrorPrefix + e), Log(FailPrefix + FetchErrorPrefix + e)])
      case Ok(fetched) =>
        if fetched.videos == [] then Abort([Error(NoVideosText), Log(FailPrefix + NoVideosText)])
        else Go(Job(req.base, format, None), fetched.videos)
  }

  /** `run_download()` as a whole, the flag starting cleared. */
  function RunDownloadSpec(req: Request, env: RunEnv): Run {
    match PlanOf(req, env)
    case Abort(es) => Run(false, es, [])
    case Go(job, items) =>
      var body := RunItems(job, items, 0, false, env.items);
      var f := body.flag || env.stopBeforeEnd;
      Run(f, body.events + (if f then [] else [Status(AllDone), Log(AllDone)]), body.outcomes)
  }

  // ---------------------------------------------------------------------------------------------
  // The worker, step by step.

  /**
   * The `ydl.download([url])` call as seen from the worker: yt_dlp invokes the hook once per progress
   * report, and a stop request from the interface thread may land before any invocation.
   */
  method DriveDownload(ev: StopEvent, calls: seq<HookCall>, lib: LibResult) returns (events: seq<Event>, result: LibResult)
    modifies ev
    ensures var t := RunHooks(old(ev.isSet), calls, 0, lib);
      ev.isSet == t.flag && events == t.events && result == t.result
  {
    ghost var whole := RunHooks(ev.isSet, calls, 0, lib);
    events, result := [], lib;
    var j := 0;
    while j < |calls|
      invariant j <= |calls|
      invariant events + RunHooks(ev.isSet, calls, j, lib).events == whole.events
      invariant RunHooks(ev.isSet, calls, j, lib).flag == whole.flag
      invariant RunHooks(ev.isSet, calls, j, lib).result == whole.result
    {
      if calls[j].userStop {
        StopDownloadProcess(ev);
      }
      var reply := ProgressHook(ev.isSet, calls[j].status);
      if reply.Raise? {
        result := DownloadError(reply.text);
        return;
      }
      events := events + reply.events;
      j := j + 1;
    }
  }

  /** One more iteration of the loop, unfolded. */
  lemma RunItemsUnfold(job: Job, items: seq<Item>, k: nat, flag: bool, env: nat -> ItemEnv)
    requires k < |items|
    ensures var st := ItemStep(job, k, |items|, items[k], flag, env(k));
      st.outcome.Halted? ==> RunItems(job, items, k, flag, env) == Run(st.flag, st.events, [Halted])
    ensures var st := ItemStep(job, k, |items|, items[k], flag, env(k));
      var rest := RunItems(job, items, k + 1, st.flag, env);
      !st.outcome.Halted? ==> RunItems(job, items, k, flag, env) == Run(rest.flag, st.events + rest.events, [st.outcome] + rest.outcomes)
  {
  }

  /**
   * The download call of a started item and the `except` clauses around it; `before` are the signals the
   * iteration has already emitted.
   */
  method Download(ev: StopEvent, job: Job, item: Item, before: seq<Event>, env: ItemEnv)
    returns (events: seq<Event>, outcome: Outcome)
    requires !ev.isSet
    modifies ev
    ensures Step(ev.isSet, events, outcome) == TransferStep(job, item, before, env)
  {
    var dir := OutputDir(job);
    var hookEvents, result := DriveDownload(ev, env.calls, env.result);
    outcome := TransferOutcome(item.title, result);
    events := before + [DownloadCall(item.url, Join(dir, Template), job.format)] + hookEvents
              + OutcomeEvents(item.title, outcome);
  }

  /**
   * The body of the loop for item `k` of `total` once the stop check has passed: the start signals, the
   * playlist folder (`continue` on failure), and the download.
   */
  method DownloadItem(ev: StopEvent, job: Job, k: nat, total: nat, item: Item, env: ItemEnv)
    returns (events: seq<Event>, outcome: Outcome)
    requires !ev.isSet && !env.stopBeforeCheck
    modifies ev
    ensures Step(ev.isSet, events, outcome) == ItemStep(job, k, total, item, false, env)
  {
    var before := StartEvents(k, total, item.title);
    if Truthy(job.playlistTitle) {
      var path := Join(job.base, Sanitize(job.playlistTitle.value));
      if !env.dir.DirExists? {
        if env.dir.DirCreateFailed? {
          outcome := DirFailed(DirFailMessage(env.dir.text));
          events := before + OutcomeEvents(item.title, outcome);
          return;
        }
        before := before + [Log(DirCreatedLog(path))];
      }
    }
    events, outcome := Download(ev, job, item, before, env);
  }

  /** One iteration of the loop over `items`: the stop check, then item `i`; `halted` says that the loop breaks. */
  method Iterate(ev: StopEvent, job: Job, items: seq<Item>, i: nat, env: ItemEnv) returns (events: seq<Event>, halted: bool)
    requires i < |items|
    modifies ev
    ensures var st := ItemStep(job, i, |items|, items[i], old(ev.isSet), env);
      ev.isSet == st.flag && events == st.events && (halted <==> st.outcome.Halted?)
  {
    if env.stopBeforeCheck {
      StopDownloadProcess(ev);
    }
    if ev.isSet {
      events, halted := OutcomeEvents(items[i].title, Halted), true;
      return;
    }
    var outcome;
    events, outcome := DownloadItem(ev, job, i, |items|, items[i], env);
    halted := false;
  }

  /** The `for` loop of `run_download` over `items`, entered with the flag cleared. */
  method DownloadItems(ev: StopEvent, job: Job, items: seq<Item>, env: nat -> ItemEnv) returns (events: seq<Event>)
    requires !ev.isSet
    modifies ev
    ensures events == RunItems(job, items, 0, false, env).events
    ensures ev.isSet == RunItems(job, items, 0, false, env).flag
  {
    ghost var whole := RunItems(job, items, 0, false, env);
    events := [];
    var i := 0;
    while i < |items|
      invariant i <= |items|
      invariant events + RunItems(job, items, i, ev.isSet, env).events == whole.events
      invariant RunItems(job, items, i, ev.isSet, env).flag == whole.flag
    {
      RunItemsUnfold(job, items, i, ev.isSet, env);
      var itemEvents, halted := Iterate(ev, job, items, i, env(i));
      if halted {
        events := events + itemEvents;
        break;
      }
      AppendAssoc(events, itemEvents, RunItems(job, items, i + 1, ev.isSet, env).events);
      events := events + itemEvents;
      i := i + 1;
    }
    assert events + [] == events;
  }

  /** `DownloadWorker.run_download()`. */
  method RunDownload(ev: StopEvent, req: Request, env: RunEnv) returns (events: seq<Event>)
    modifies ev
    ensures events == RunDownloadSpec(req, env).events
    ensures ev.isSet == RunDownloadSpec(req, env).flag
  {
    ResetStopEvent(ev);
    var items: seq<Item>;
    var playlistTitle: Option<string>;
    if req.selected.Some? && |req.selected.value| > 0 {
      items := req.selected.value;
      playlistTitle := req.playlistOverride;
    } else {
      var info := GetVideosInfo(req.url, env.extracted);
      if info.Err? {
        events := [Error(FetchErrorPrefix + info.error), Log(FailPrefix + FetchErrorPrefix + info.error)];
        return;
      }
      if info.value.videos == [] {
        events := [Error(NoVideosText), Log(FailPrefix + NoVideosText)];
        return;
      }
      items := info.value.videos;
      playlistTitle := None;
    }
    var job := Job(req.base, FormatOptions(req.quality, req.fileType), playlistTitle);
    assert PlanOf(req, env) == Go(job, items);
    events := DownloadItems(ev, job, items, env.items);
    if env.stopBeforeEnd {
      StopDownloadProcess(ev);
    }
    if !ev.isSet {
      events := events + [Status(AllDone), Log(AllDone)];
    }
  }
}
