/**
 * The Streamlit shell's own logic: the file name `download_video` returns (with the `.mp3` rename), the
 * default selection of videos, and the download loop over the selection, which reports a failed item
 * and carries on with the next one.
 */
module WebShell {
  import opened Wrappers
  import opened Text
  import opened Formats
  import opened VideoInfo

  const Mp3Suffix := ".mp3"
  const DownloadFailPrefix := "خطأ في التحميل: "
  const WebAllDone := "\U{2705} اكتملت جميع التحميلات!"

  /** `filename.rsplit('.', 1)[0] + '.mp3'`: everything from the last dot is replaced by `.mp3`. */
  function Mp3Name(f: string): (r: string)
    ensures |r| >= |Mp3Suffix| && r[|r| - |Mp3Suffix|..] == Mp3Suffix
    ensures '.' !in f ==> r == f + Mp3Suffix
    ensures '.' in f ==>
      var k := |r| - |Mp3Suffix|;
      k < |f| && f[k] == '.' && r[..k] == f[..k] && '.' !in f[k + 1..]
  {
    var i := RFind(f, '.');
    var stem := if i < 0 then f else f[..i];
    assert (stem + Mp3Suffix)[..|stem|] == stem;
    assert forall j :: i + 1 <= j < |f| ==> f[j] == f[i + 1..][j - i - 1];
    stem + Mp3Suffix
  }

  /** Renaming a name that already went through the rename changes nothing. */
  lemma Mp3NameStable(f: string)
    ensures Mp3Name(Mp3Name(f)) == Mp3Name(f)
  {
    Mp3NameKeepsMp3(Mp3Name(f));
  }

  /** A name that already ends in `.mp3` is left as it is. */
  lemma Mp3NameKeepsMp3(r: string)
    requires |r| >= |Mp3Suffix| && r[|r| - |Mp3Suffix|..] == Mp3Suffix
    ensures Mp3Name(r) == r
  {
    var k := |r| - |Mp3Suffix|;
    assert r[k] == '.' && r[k + 1] == 'm' && r[k + 2] == 'p' && r[k + 3] == '3';
    RFindAt(r, '.', k);
    assert r[..k] + Mp3Suffix == r;
  }

  /** What yt_dlp did inside `download_video`'s `try`: it prepared a file name, or raised with a text. */
  datatype Fetch = Prepared(filename: string) | FetchRaised(text: string)

  /**
   * Everything outside the page that shapes one item: whether `os.makedirs("downloads", exist_ok=True)`
   * raised (and with what text), what yt_dlp did, and whether the returned file exists.
   */
  datatype WebItemEnv = WebItemEnv(makedirsError: Option<string>, fetch: Fetch, fileExists: bool)

  /**
   * `download_video(url, quality, file_type, ...)`: the file name, or the text of the exception it lets
   * out. A folder error escapes unwrapped, as it is raised before the `try`.
   */
  function DownloadVideo(fileType: string, env: WebItemEnv): (r: Result<string, string>)
    ensures r.Ok? <==> env.makedirsError.None? && env.fetch.Prepared?
    ensures r.Ok? && fileType != Mp3 ==> r.value == env.fetch.filename
    ensures r.Ok? && fileType == Mp3 ==> r.value == Mp3Name(env.fetch.filename)
    ensures env.makedirsError.Some? ==> r == Err(env.makedirsError.value)
    ensures env.makedirsError.None? && env.fetch.FetchRaised? ==>
      r.Err? && DownloadFailPrefix <= r.error && Contains(r.error, env.fetch.text)
  {
    if env.makedirsError.Some? then Err(env.makedirsError.value)
    else match env.fetch
      case FetchRaised(text) =>
        ContainsAtEnd(DownloadFailPrefix, text);
        Err(DownloadFailPrefix + text)
      case Prepared(filename) => Ok(if fileType == Mp3 then Mp3Name(filename) else filename)
  }

  /** The selection the page starts from, as written: every index when there are several videos, else `[0]`. */
  function DefaultSelectionAsWritten(n: nat): (sel: seq<nat>)
    ensures n > 1 ==> |sel| == n && forall i :: 0 <= i < n ==> sel[i] == i
    ensures n <= 1 ==> |sel| == 1 && sel[0] == 0
  {
    if n > 1 then seq(n, i requires 0 <= i < n => i) else [0]
  }

  /**
   * A playlist with no entries, or a dictionary with neither entries nor an id, is accepted by the web
   * shell's metadata step with an empty list; the default selection then names index 0 of that empty
   * list, which the page reads to show the title.
   */
  lemma EmptyListBreaksSelection(title: string)
    ensures var r := GetVideosInfoWeb(Returned(Some(Info(Some([]), None, Some(title), None))));
      r.Ok? && r.value.videos == [] && r.value.playlistTitle == None
      && DefaultSelectionAsWritten(|r.value.videos|) == [0] && !(0 < |r.value.videos|)
  {
  }

  /** The default selection as intended: every index, in order, and nothing for an empty list. */
  function DefaultSelection(n: nat): (sel: seq<nat>)
    ensures |sel| == n
    ensures forall i :: 0 <= i < |sel| ==> sel[i] == i
  {
    seq(n, i requires 0 <= i < n => i)
  }

  /** The intended selection differs from the one as written only for an empty list. */
  lemma DefaultSelectionAgrees(n: nat)
    ensures n > 0 <==> DefaultSelection(n) == DefaultSelectionAsWritten(n)
  {
    if n == 0 {
      assert |DefaultSelectionAsWritten(n)| == 1;
    }
  }

  /** A selection the page can read: every index names a video. */
  predicate InRange(selected: seq<nat>, n: nat) {
    forall i :: 0 <= i < |selected| ==> selected[i] < n
  }

  lemma DefaultSelectionInRange(n: nat)
    ensures InRange(DefaultSelection(n), n)
  {
  }

  /** What the page shows, in order, plus the call into `download_video` with the item's url and format. */
  datatype WebEvent =
    | StatusText(text: string)
    | Attempt(url: string, format: string)
    | DownloadButton(fileName: string)
    | Success(text: string)
    | ErrorBox(text: string)
    | ProgressBar(done: nat, total: nat)

  /** The error line shown for a video whose download raised `m`. */
  function FailureLine(title: string, m: string): string {
    "\U{274C} خطأ في " + title + ": " + m
  }

  /** What the page shows for a video once `download_video` has returned or raised. */
  function Shown(title: string, fileType: string, env: WebItemEnv): seq<WebEvent> {
    match DownloadVideo(fileType, env)
    case Ok(f) => if env.fileExists then [DownloadButton(Basename(f)), Success("\U{2705} اكتمل: " + title)] else []
    case Err(m) => [ErrorBox(FailureLine(title, m))]
  }

  /**
   * A video shows only result displays: one error box holding the exception's text when `download_video`
   * raised, and otherwise no error, with the download button and success line exactly when the file exists.
   */
  lemma ShownReports(title: string, fileType: string, env: WebItemEnv)
    ensures var es := Shown(title, fileType, env);
      (forall e :: e in es ==> e.DownloadButton? || e.Success? || e.ErrorBox?)
      && (DownloadVideo(fileType, env).Err? ==>
            |es| == 1 && es[0].ErrorBox? && Contains(es[0].text, DownloadVideo(fileType, env).error))
      && (DownloadVideo(fileType, env).Ok? ==> (es == [] <==> !env.fileExists) && forall e :: e in es ==> !e.ErrorBox?)
  {
    var r := DownloadVideo(fileType, env);
    var es := Shown(title, fileType, env);
    if r.Err? {
      assert es == [ErrorBox(FailureLine(title, r.error))];
      ContainsAtEnd("\U{274C} خطأ في " + title + ": ", r.error);
    } else if env.fileExists {
      assert es == [DownloadButton(Basename(r.value)), Success("\U{2705} اكتمل: " + title)];
    } else {
      assert es == [];
    }
  }

  /** Position `i` of the selection: status line, attempt, the result shown, and the progress bar. */
  function WebItem(videos: seq<Item>, selected: seq<nat>, i: nat, quality: string, fileType: string,
                   env: WebItemEnv): seq<WebEvent>
    requires i < |selected| && InRange(selected, |videos|)
  {
    var v := videos[selected[i]];
    [StatusText(StartStatus(i, |selected|, v.title)), Attempt(v.url, FormatOptions(quality, fileType))]
    + Shown(v.title, fileType, env) + [ProgressBar(i + 1, |selected|)]
  }

  /** The blocks of events of positions `i`, `i + 1`, ... up to `n`, one after another. */
  function Concat(block: nat -> seq<WebEvent>, i: nat, n: nat): seq<WebEvent>
    decreases n - i
  {
    if i >= n then [] else block(i) + Concat(block, i + 1, n)
  }

  /** Position `i` of the selection, for any `i`; `env(i)` is the environment of position `i`. */
  function Positions(videos: seq<Item>, selected: seq<nat>, quality: string, fileType: string,
                     env: nat -> WebItemEnv): nat -> seq<WebEvent>
    requires InRange(selected, |videos|)
  {
    (i: nat) => if i < |selected| then WebItem(videos, selected, i, quality, fileType, env(i)) else []
  }

  lemma PositionsAt(videos: seq<Item>, selected: seq<nat>, quality: string, fileType: string,
                    env: nat -> WebItemEnv, j: nat)
    requires j < |selected| && InRange(selected, |videos|)
    ensures Positions(videos, selected, quality, fileType, env)(j) == WebItem(videos, selected, j, quality, fileType, env(j))
  {
  }

  /** The loop from position `i` of the selection on. */
  function WebItems(videos: seq<Item>, selected: seq<nat>, i: nat, quality: string, fileType: string,
                    env: nat -> WebItemEnv): seq<WebEvent>
    requires i <= |selected| && InRange(selected, |videos|)
  {
    Concat(Positions(videos, selected, quality, fileType, env), i, |selected|)
  }

  lemma WebItemsUnfold(videos: seq<Item>, selected: seq<nat>, i: nat, quality: string, fileType: string,
                       env: nat -> WebItemEnv)
    requires i < |selected| && InRange(selected, |videos|)
    ensures WebItems(videos, selected, i, quality, fileType, env)
         == WebItem(videos, selected, i, quality, fileType, env(i)) + WebItems(videos, selected, i + 1, quality, fileType, env)
  {
  }

  /**
   * One pass of the loop's body: the status line, the call into `download_video` inside its
   * `try`/`except`, what the page shows of its result, and the progress bar.
   */
  method ShowPosition(videos: seq<Item>, selected: seq<nat>, idx: nat, quality: string, fileType: string,
                      env: WebItemEnv) returns (block: seq<WebEvent>)
    requires idx < |selected| && InRange(selected, |videos|)
    ensures block == WebItem(videos, selected, idx, quality, fileType, env)
  {
    var video := videos[selected[idx]];
    var shown: seq<WebEvent> := [];
    var result := DownloadVideo(fileType, env);
    if result.Ok? {
      var filename := result.value;
      if env.fileExists {
        shown := [DownloadButton(Basename(filename)), Success("\U{2705} اكتمل: " + video.title)];
      }
    } else {
      shown := [ErrorBox("\U{274C} خطأ في " + video.title + ": " + result.error)];
    }
    block := [StatusText(StartStatus(idx, |selected|, video.title)), Attempt(video.url, FormatOptions(quality, fileType))]
             + shown + [ProgressBar(idx + 1, |selected|)];
  }

  /** The download button's handler: one pass over the selection, then the closing status. */
  method DownloadSelected(videos: seq<Item>, selected: seq<nat>, quality: string, fileType: string,
                          env: nat -> WebItemEnv) returns (events: seq<WebEvent>)
    requires InRange(selected, |videos|)
    ensures events == WebItems(videos, selected, 0, quality, fileType, env) + [StatusText(WebAllDone)]
  {
    events := [];
    for idx := 0 to |selected|
      invariant events + WebItems(videos, selected, idx, quality, fileType, env)
             == WebItems(videos, selected, 0, quality, fileType, env)
    {
      var block := ShowPosition(videos, selected, idx, quality, fileType, env(idx));
      WebItemsUnfold(videos, selected, idx, quality, fileType, env);
      AppendAssoc(events, block, WebItems(videos, selected, idx + 1, quality, fileType, env));
      events := events + block;
    }
    assert events + [] == events;
    events := events + [StatusText(WebAllDone)];
  }

  /** What the page's pass is followed by: the calls into `download_video`, or the progress-bar updates. */
  datatype Track = Attempts | Progress

  predicate Keeps(t: Track, e: WebEvent) {
    match t
    case Attempts => e.Attempt?
    case Progress => e.ProgressBar?
  }

  /** The events among `es` that track `t` follows, in order. */
  function Picked(t: Track, es: seq<WebEvent>): seq<WebEvent> {
    if es == [] then [] else (if Keeps(t, es[0]) then [es[0]] else []) + Picked(t, es[1..])
  }

  lemma {:induction false} PickedAppend(t: Track, a: seq<WebEvent>, b: seq<WebEvent>)
    ensures Picked(t, a + b) == Picked(t, a) + Picked(t, b)
    decreases |a|
  {
    if a == [] {
      assert a + b == b;
    } else {
      var h := if Keeps(t, a[0]) then [a[0]] else [];
      assert (a + b)[0] == a[0];
      assert (a + b)[1..] == a[1..] + b;
      PickedAppend(t, a[1..], b);
      calc {
        Picked(t, a + b);
        h + Picked(t, a[1..] + b);
        h + (Picked(t, a[1..]) + Picked(t, b));
        (h + Picked(t, a[1..])) + Picked(t, b);
      }
    }
  }

  lemma PickedOne(t: Track, e: WebEvent)
    ensures Picked(t, [e]) == if Keeps(t, e) then [e] else []
  {
    assert [e][1..] == [];
  }

  /** Result displays are followed by neither track. */
  lemma {:induction false} ShownHidden(t: Track, es: seq<WebEvent>)
    requires forall e :: e in es ==> e.DownloadButton? || e.Success? || e.ErrorBox?
    ensures Picked(t, es) == []
    decreases |es|
  {
    if es != [] {
      assert es[0] in es;
      assert forall e :: e in es[1..] ==> e in es;
      ShownHidden(t, es[1..]);
    }
  }

  /** A block made of a status line, an attempt, result displays and a bar update: one event per track. */
  lemma BlockPicked(t: Track, a: WebEvent, b: WebEvent, shown: seq<WebEvent>, c: WebEvent)
    requires a.StatusText? && b.Attempt? && c.ProgressBar?
    requires forall e :: e in shown ==> e.DownloadButton? || e.Success? || e.ErrorBox?
    ensures Picked(t, [a, b] + shown + [c]) == if t == Attempts then [b] else [c]
  {
    PickedOne(t, a);
    PickedOne(t, b);
    PickedOne(t, c);
    ShownHidden(t, shown);
    assert [a, b] == [a] + [b];
    PickedAppend(t, [a], [b]);
    PickedAppend(t, [a, b], shown);
    PickedAppend(t, [a, b] + shown, [c]);
  }

  /** One position of the selection: one attempt for its video, and one progress update, whatever happens. */
  lemma WebItemSignals(videos: seq<Item>, selected: seq<nat>, i: nat, quality: string, fileType: string,
                       env: WebItemEnv)
    requires i < |selected| && InRange(selected, |videos|)
    ensures Picked(Attempts, WebItem(videos, selected, i, quality, fileType, env))
         == [Attempt(videos[selected[i]].url, FormatOptions(quality, fileType))]
    ensures Picked(Progress, WebItem(videos, selected, i, quality, fileType, env)) == [ProgressBar(i + 1, |selected|)]
  {
    var v := videos[selected[i]];
    var shown := Shown(v.title, fileType, env);
    ShownReports(v.title, fileType, env);
    BlockPicked(Attempts, StatusText(StartStatus(i, |selected|, v.title)), Attempt(v.url, FormatOptions(quality, fileType)),
                shown, ProgressBar(i + 1, |selected|));
    BlockPicked(Progress, StatusText(StartStatus(i, |selected|, v.title)), Attempt(v.url, FormatOptions(quality, fileType)),
                shown, ProgressBar(i + 1, |selected|));
  }

  /** The events `want(i)`, `want(i + 1)`, ... up to `n`, in order. */
  function Wanted(want: nat -> WebEvent, i: nat, n: nat): seq<WebEvent>
    decreases n - i
  {
    if i >= n then [] else [want(i)] + Wanted(want, i + 1, n)
  }

  lemma {:induction false} WantedShape(want: nat -> WebEvent, i: nat, n: nat)
    requires i <= n
    ensures |Wanted(want, i, n)| == n - i
    ensures forall j :: 0 <= j < n - i ==> Wanted(want, i, n)[j] == want(i + j)
    decreases n - i
  {
    if i < n {
      var ws := Wanted(want, i, n);
      var rest := Wanted(want, i + 1, n);
      WantedShape(want, i + 1, n);
      assert ws == [want(i)] + rest;
      forall j | 1 <= j < n - i
        ensures ws[j] == want(i + j)
      {
        assert ws[j] == rest[j - 1];
      }
    }
  }

  /** Blocks that each hold one event of track `t`, `want(j)` for block `j`, hold those events in block order. */
  lemma {:induction false} ConcatPicked(t: Track, block: nat -> seq<WebEvent>, i: nat, n: nat, want: nat -> WebEvent)
    requires i <= n && forall j :: i <= j < n ==> Picked(t, block(j)) == [want(j)]
    ensures Picked(t, Concat(block, i, n)) == Wanted(want, i, n)
    decreases n - i
  {
    if i < n {
      ConcatPicked(t, block, i + 1, n, want);
      PickedAppend(t, block(i), Concat(block, i + 1, n));
    }
  }

  /**
   * The loop attempts every selected index exactly once, in selection order, whether or not earlier
   * items failed.
   */
  lemma WebItemsAttemptAll(videos: seq<Item>, selected: seq<nat>, i: nat, quality: string,
                           fileType: string, env: nat -> WebItemEnv)
    requires i <= |selected| && InRange(selected, |videos|)
    ensures var att := Picked(Attempts, WebItems(videos, selected, i, quality, fileType, env));
      |att| == |selected| - i
      && forall j :: 0 <= j < |att| ==> att[j] == Attempt(videos[selected[i + j]].url, FormatOptions(quality, fileType))
  {
    var block := Positions(videos, selected, quality, fileType, env);
    var want := (j: nat) => if j < |selected| then Attempt(videos[selected[j]].url, FormatOptions(quality, fileType))
                            else Attempt("", "");
    forall j | i <= j < |selected|
      ensures Picked(Attempts, block(j)) == [want(j)]
    {
      PositionsAt(videos, selected, quality, fileType, env, j);
      WebItemSignals(videos, selected, j, quality, fileType, env(j));
    }
    ConcatPicked(Attempts, block, i, |selected|, want);
    WantedShape(want, i, |selected|);
    var att := Picked(Attempts, WebItems(videos, selected, i, quality, fileType, env));
    forall j | 0 <= j < |att|
      ensures att[j] == Attempt(videos[selected[i + j]].url, FormatOptions(quality, fileType))
    {
      assert att[j] == want(i + j);
    }
  }

  /** The progress bar moves once per position of the selection, to `(i + 1)/total` after position `i`. */
  lemma WebItemsProgress(videos: seq<Item>, selected: seq<nat>, i: nat, quality: string,
                         fileType: string, env: nat -> WebItemEnv)
    requires i <= |selected| && InRange(selected, |videos|)
    ensures var ps := Picked(Progress, WebItems(videos, selected, i, quality, fileType, env));
      |ps| == |selected| - i && forall j :: 0 <= j < |ps| ==> ps[j] == ProgressBar(i + j + 1, |selected|)
  {
    var block := Positions(videos, selected, quality, fileType, env);
    var want := (j: nat) => ProgressBar(j + 1, |selected|);
    forall j | i <= j < |selected|
      ensures Picked(Progress, block(j)) == [want(j)]
    {
      PositionsAt(videos, selected, quality, fileType, env, j);
      WebItemSignals(videos, selected, j, quality, fileType, env(j));
    }
    ConcatPicked(Progress, block, i, |selected|, want);
    WantedShape(want, i, |selected|);
    var ps := Picked(Progress, WebItems(videos, selected, i, quality, fileType, env));
    forall j | 0 <= j < |ps|
      ensures ps[j] == ProgressBar(i + j + 1, |selected|)
    {
      assert ps[j] == want(i + j);
    }
  }

  /**
   * A whole pass: every selected video is attempted once, in selection order; the bar reaches
   * `total/total`; the closing status always comes last, failures or not.
   */
  lemma DownloadSelectedAttempts(videos: seq<Item>, selected: seq<nat>, quality: string, fileType: string,
                                 env: nat -> WebItemEnv)
    requires InRange(selected, |videos|)
    ensures var es := WebItems(videos, selected, 0, quality, fileType, env) + [StatusText(WebAllDone)];
      |Picked(Attempts, es)| == |selected| && |Picked(Progress, es)| == |selected|
      && (forall j :: 0 <= j < |selected| ==>
            Picked(Attempts, es)[j] == Attempt(videos[selected[j]].url, FormatOptions(quality, fileType)))
      && (|selected| > 0 ==> Picked(Progress, es)[|selected| - 1] == ProgressBar(|selected|, |selected|))
      && es[|es| - 1] == StatusText(WebAllDone)
  {
    var body := WebItems(videos, selected, 0, quality, fileType, env);
    WebItemsAttemptAll(videos, selected, 0, quality, fileType, env);
    WebItemsProgress(videos, selected, 0, quality, fileType, env);
    PickedOne(Attempts, StatusText(WebAllDone));
    PickedOne(Progress, StatusText(WebAllDone));
    PickedAppend(Attempts, body, [StatusText(WebAllDone)]);
    PickedAppend(Progress, body, [StatusText(WebAllDone)]);
    assert Picked(Attempts, body + [StatusText(WebAllDone)]) == Picked(Attempts, body);
    assert Picked(Progress, body + [StatusText(WebAllDone)]) == Picked(Progress, body);
  }

  /** With the default selection, every listed video is attempted once, in list order. */
  lemma DefaultRunAttemptsEveryVideo(videos: seq<Item>, quality: string, fileType: string, env: nat -> WebItemEnv)
    ensures InRange(DefaultSelection(|videos|), |videos|)
    ensures var att := Picked(Attempts, WebItems(videos, DefaultSelection(|videos|), 0, quality, fileType, env));
      |att| == |videos| && forall j :: 0 <= j < |videos| ==> att[j] == Attempt(videos[j].url, FormatOptions(quality, fileType))
  {
    var sel := DefaultSelection(|videos|);
    DefaultSelectionInRange(|videos|);
    WebItemsAttemptAll(videos, sel, 0, quality, fileType, env);
    var att := Picked(Attempts, WebItems(videos, sel, 0, quality, fileType, env));
    forall j | 0 <= j < |videos|
      ensures att[j] == Attempt(videos[j].url, FormatOptions(quality, fileType))
    {
      assert sel[0 + j] == j;
    }
  }
}
