/**
 * `get_videos_info(url)` of both shells, from the moment yt_dlp's `extract_info` has returned (or raised):
 * the info dictionary is flattened into an ordered item list and an optional collection title, and
 * failures are turned into the shell's messages.
 */
module VideoInfo {
  import opened Wrappers
  import opened Text

  /** One element of `info['entries']`; `None` for a key stands for a key the dictionary does not have. */
  datatype Entry = Entry(id: Option<string>, title: Option<string>)

  /**
   * The parts of the dictionary `extract_info` returns that the code reads. An element of `entries`
   * that is `None` is a falsy entry (`None` or an empty dictionary).
   */
  datatype Info = Info(entries: Option<seq<Option<Entry>>>, id: Option<string>, title: Option<string>,
                       webpageUrl: Option<string>)

  /** The `{"title", "url", "id"}` dictionary appended to `videos`. */
  datatype Item = Item(title: string, url: string, id: string)

  /** The `{"videos", "playlist_title"}` dictionary returned on success. */
  datatype FetchResult = FetchResult(videos: seq<Item>, playlistTitle: Option<string>)

  /**
   * What the call `ydl.extract_info(url, download=False)` did: it returned a dictionary (`None` here for a
   * falsy one), raised yt_dlp's `DownloadError`, or raised some other exception; the strings are `str(e)`.
   */
  datatype Extracted = Returned(info: Option<Info>) | RaisedDownloadError(text: string) | RaisedOther(text: string)

  const WatchPrefix := "https://www.youtube.com/watch?v="
  const UntitledVideo := "مرئية بدون عنوان"
  const UnnamedPlaylist := "قائمة تشغيل غير مسماة"
  const WebPlaylistTitle := "قائمة تشغيل"
  const NoInfoText := "لم يتم العثور على معلومات للمرئية."
  const BadShapeText := "تنسيق المعلومات غير مدعوم أو الرابط غير صالح."
  const UnsupportedPrefix := "الرابط غير مدعوم: "
  const UnavailableText := "المرئية غير متاح."
  const FetchErrorPrefix := "خطأ في جلب معلومات المرئية: "
  const UnexpectedPrefix := "خطأ غير متوقع في جلب المعلومات: "
  const WebErrorPrefix := "خطأ في جلب المعلومات: "

  /** Python truthiness of an optional string: present and non-empty. */
  predicate Truthy(s: Option<string>) {
    s.Some? && s.value != ""
  }

  /** `'entries' in info and info['entries']`. */
  predicate HasEntries(info: Info) {
    info.entries.Some? && |info.entries.value| > 0
  }

  /** An entry that yields an item: truthy, with a truthy `id`. */
  predicate Usable(e: Option<Entry>) {
    e.Some? && Truthy(e.value.id)
  }

  function EntryItem(e: Entry): (item: Item)
    requires Truthy(e.id)
    ensures item.id == e.id.value && item.url == WatchPrefix + item.id
    ensures e.title.Some? ==> item.title == e.title.value
    ensures e.title.None? ==> item.title == UntitledVideo
  {
    Item(e.title.GetOr(UntitledVideo), WatchPrefix + e.id.value, e.id.value)
  }

  /** The loop over `info["entries"]`: usable entries become items, in entry order. */
  function PlaylistItems(entries: seq<Option<Entry>>): (items: seq<Item>)
    ensures |items| <= |entries|
    ensures forall i :: 0 <= i < |items| ==> items[i].id != "" && items[i].url == WatchPrefix + items[i].id
  {
    if entries == [] then []
    else (if Usable(entries[0]) then [EntryItem(entries[0].value)] else []) + PlaylistItems(entries[1..])
  }

  /** The single-item branch: at most one item, using `webpage_url` when the dictionary has it. */
  function SingleItem(info: Info): (items: seq<Item>)
    requires info.id.Some?
    ensures |items| <= 1
    ensures |items| == 1 <==> Truthy(info.id)
    ensures forall v :: v in items ==> v.id == info.id.value && v.url == info.webpageUrl.GetOr(WatchPrefix + v.id)
    ensures forall v :: v in items ==> v.title == info.title.GetOr(UntitledVideo)
  {
    if Truthy(info.id) then
      [Item(info.title.GetOr(UntitledVideo), info.webpageUrl.GetOr(WatchPrefix + info.id.value), info.id.value)]
    else []
  }

  /** The desktop shell's classification of a `DownloadError` raised while resolving `url`. */
  function ResolveErrorMessage(url: string, text: string): (m: string)
    ensures Contains(text, "Unsupported URL") ==> m == UnsupportedPrefix + url
    ensures !Contains(text, "Unsupported URL") && Contains(text, "Video unavailable") ==> m == UnavailableText
    ensures !Contains(text, "Unsupported URL") && !Contains(text, "Video unavailable") ==> m == FetchErrorPrefix + text
  {
    if Contains(text, "Unsupported URL") then UnsupportedPrefix + url
    else if Contains(text, "Video unavailable") then UnavailableText
    else FetchErrorPrefix + text
  }

  /** `get_videos_info(url)` of the desktop shell; `Err` carries the message of the exception it raises. */
  function GetVideosInfo(url: string, ex: Extracted): (r: Result<FetchResult, string>)
    ensures r.Ok? <==> ex.Returned? && ex.info.Some? && (HasEntries(ex.info.value) || ex.info.value.id.Some?)
    ensures r.Ok? ==> (r.value.playlistTitle.Some? <==> HasEntries(ex.info.value))
    ensures r.Ok? && HasEntries(ex.info.value) ==>
      r.value.videos == PlaylistItems(ex.info.value.entries.value)
      && r.value.playlistTitle == Some(ex.info.value.title.GetOr(UnnamedPlaylist))
    ensures r.Ok? && !HasEntries(ex.info.value) ==> r.value.videos == SingleItem(ex.info.value)
    ensures r.Ok? && !HasEntries(ex.info.value) ==> |r.value.videos| <= 1
    ensures r.Ok? ==> forall v :: v in r.value.videos ==> v.id != ""
    ensures ex.RaisedDownloadError? ==> r == Err(ResolveErrorMessage(url, ex.text))
    ensures ex.Returned? && r.Err? ==> UnexpectedPrefix <= r.error
    ensures ex.RaisedOther? ==> r == Err(UnexpectedPrefix + ex.text)
    ensures ex == Returned(None) ==> r == Err(UnexpectedPrefix + NoInfoText)
    ensures ex.Returned? && ex.info.Some? && !HasEntries(ex.info.value) && ex.info.value.id.None? ==>
      r == Err(UnexpectedPrefix + BadShapeText)
  {
    match ex
    case RaisedDownloadError(text) => Err(ResolveErrorMessage(url, text))
    case RaisedOther(text) => Err(UnexpectedPrefix + text)
    case Returned(None) => Err(UnexpectedPrefix + NoInfoText)
    case Returned(Some(info)) =>
      if HasEntries(info) then
        Ok(FetchResult(PlaylistItems(info.entries.value), Some(info.title.GetOr(UnnamedPlaylist))))
      else if info.id.Some? then
        Ok(FetchResult(SingleItem(info), None))
      else
        Err(UnexpectedPrefix + BadShapeText)
  }

  /** `get_videos_info(url)` of the web shell: no shape error, and one prefix on every error. */
  function GetVideosInfoWeb(ex: Extracted): (r: Result<FetchResult, string>)
    ensures r.Err? <==> !ex.Returned? || ex.info.None?
    ensures r.Err? ==> WebErrorPrefix <= r.error
    ensures !ex.Returned? ==> r == Err(WebErrorPrefix + ex.text)
    ensures ex == Returned(None) ==> r == Err(WebErrorPrefix + NoInfoText)
    ensures r.Ok? ==> (r.value.playlistTitle.Some? <==> HasEntries(ex.info.value))
    ensures r.Ok? && HasEntries(ex.info.value) ==>
      r.value.videos == PlaylistItems(ex.info.value.entries.value)
      && r.value.playlistTitle == Some(ex.info.value.title.GetOr(WebPlaylistTitle))
    ensures r.Ok? && !HasEntries(ex.info.value) && ex.info.value.id.Some? ==>
      r.value.videos == SingleItem(ex.info.value)
    ensures r.Ok? && !HasEntries(ex.info.value) && ex.info.value.id.None? ==> r.value.videos == []
  {
    match ex
    case RaisedDownloadError(text) => Err(WebErrorPrefix + text)
    case RaisedOther(text) => Err(WebErrorPrefix + text)
    case Returned(None) => Err(WebErrorPrefix + NoInfoText)
    case Returned(Some(info)) =>
      if HasEntries(info) then
        Ok(FetchResult(PlaylistItems(info.entries.value), Some(info.title.GetOr(WebPlaylistTitle))))
      else if info.id.Some? then
        Ok(FetchResult(SingleItem(info), None))
      else
        Ok(FetchResult([], None))
  }

  /** Flattening distributes over the entry list: items keep the order of their entries. */
  lemma {:induction false} PlaylistItemsAppend(a: seq<Option<Entry>>, b: seq<Option<Entry>>)
    ensures PlaylistItems(a + b) == PlaylistItems(a) + PlaylistItems(b)
    decreases |a|
  {
    if a == [] {
      assert a + b == b;
    } else {
      var h := if Usable(a[0]) then [EntryItem(a[0].value)] else [];
      assert (a + b)[0] == a[0];
      assert (a + b)[1..] == a[1..] + b;
      PlaylistItemsAppend(a[1..], b);
      calc {
        PlaylistItems(a + b);
        h + PlaylistItems(a[1..] + b);
        h + (PlaylistItems(a[1..]) + PlaylistItems(b));
        (h + PlaylistItems(a[1..])) + PlaylistItems(b);
      }
    }
  }

  /** A single entry yields its item exactly when it is usable. */
  lemma PlaylistItemsSingle(e: Option<Entry>)
    ensures PlaylistItems([e]) == if Usable(e) then [EntryItem(e.value)] else []
  {
    assert [e][1..] == [];
  }

  /** Every usable entry, and nothing else, is turned into an item. */
  lemma {:induction false} PlaylistItemsComplete(entries: seq<Option<Entry>>, item: Item)
    ensures item in PlaylistItems(entries) <==>
      exists i :: 0 <= i < |entries| && Usable(entries[i]) && item == EntryItem(entries[i].value)
    decreases |entries|
  {
    if entries != [] {
      PlaylistItemsComplete(entries[1..], item);
      if item in PlaylistItems(entries[1..]) {
        var i :| 0 <= i < |entries| - 1 && Usable(entries[1..][i]) && item == EntryItem(entries[1..][i].value);
        assert entries[i + 1] == entries[1..][i];
      }
      if exists i :: 0 <= i < |entries| && Usable(entries[i]) && item == EntryItem(entries[i].value) {
        var i :| 0 <= i < |entries| && Usable(entries[i]) && item == EntryItem(entries[i].value);
        if i > 0 {
          assert entries[1..][i - 1] == entries[i];
        }
      }
    }
  }

  /** An unsupported URL is reported with the URL, even when the library also says the video is unavailable. */
  lemma UnsupportedUrlNamesUrl(url: string, text: string)
    requires Contains(text, "Unsupported URL")
    ensures GetVideosInfo(url, RaisedDownloadError(text)) == Err(UnsupportedPrefix + url)
    ensures Contains(UnsupportedPrefix + url, url)
  {
    ContainsAtEnd(UnsupportedPrefix, url);
  }

  /** Any other library error keeps the library's text inside the message. */
  lemma OtherErrorsKeepText(url: string, ex: Extracted)
    requires ex.RaisedOther? || (ex.RaisedDownloadError? && !Contains(ex.text, "Unsupported URL")
                                 && !Contains(ex.text, "Video unavailable"))
    ensures GetVideosInfo(url, ex).Err? && Contains(GetVideosInfo(url, ex).error, ex.text)
  {
    if ex.RaisedOther? {
      ContainsAtEnd(UnexpectedPrefix, ex.text);
    } else {
      ContainsAtEnd(FetchErrorPrefix, ex.text);
    }
  }

  /**
   * Where the desktop shell succeeds, the web shell returns the same items in the same order and the same
   * collection title up to the default placeholder; where the desktop shell rejects the dictionary's shape,
   * the web shell returns an empty list.
   */
  lemma WebAgreesWithDesktop(url: string, ex: Extracted)
    ensures GetVideosInfo(url, ex).Ok? ==>
      GetVideosInfoWeb(ex).Ok? && GetVideosInfoWeb(ex).value.videos == GetVideosInfo(url, ex).value.videos
    ensures GetVideosInfo(url, ex).Ok? && ex.info.value.title.Some? ==>
      GetVideosInfoWeb(ex).value.playlistTitle == GetVideosInfo(url, ex).value.playlistTitle
    ensures ex.Returned? && ex.info.Some? && GetVideosInfo(url, ex).Err? ==>
      GetVideosInfoWeb(ex) == Ok(FetchResult([], None))
  {
  }
}
