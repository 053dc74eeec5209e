/**
 * `YouTubeDownloaderApp.load_config`: the settings dictionary is read from `config.json`; each of the
 * four settings the window needs is added with its default when the file does not have it, and a
 * missing or unreadable file gives the four defaults.
 */
module Config {
  /** A JSON value as far as the settings care: a string, a boolean, or anything else. */
  datatype Value = JString(s: string) | JBool(b: bool) | JOther

  /**
   * What reading `config.json` gives: no such file, an exception while opening or parsing it (the
   * text is what the handler prints), or a JSON object.
   */
  datatype ConfigSource = Missing | Unreadable(text: string) | Loaded(obj: map<string, Value>)

  const SaveDirKey := "save_dir"
  const FormatKey := "format"
  const QualityKey := "quality"
  const SubtitlesKey := "subtitles"

  /** The four settings the window reads. */
  const Keys: set<string> := {SaveDirKey, FormatKey, QualityKey, SubtitlesKey}

  /** The four settings at their defaults; `defaultDir` is `DEFAULT_DOWNLOAD_DIR`. */
  function Defaults(defaultDir: string): (d: map<string, Value>)
    ensures d.Keys == Keys
  {
    map[SaveDirKey := JString(defaultDir), FormatKey := JString("mp4"),
        QualityKey := JString("متوسطة"), SubtitlesKey := JBool(false)]
  }

  /**
   * The settings after `load_config()`: a loaded object keeps every key it has, with its value, and
   * gains exactly the missing ones among the four, at their defaults; anything else gives the defaults.
   */
  function LoadedConfig(src: ConfigSource, defaultDir: string): (c: map<string, Value>)
    ensures !src.Loaded? ==> c == Defaults(defaultDir)
    ensures src.Loaded? ==> c.Keys == src.obj.Keys + Keys
    ensures src.Loaded? ==> forall k :: k in src.obj ==> c[k] == src.obj[k]
    ensures src.Loaded? ==> forall k :: k in Keys && k !in src.obj ==> c[k] == Defaults(defaultDir)[k]
  {
    if src.Loaded? then Defaults(defaultDir) + src.obj else Defaults(defaultDir)
  }

  /**
   * One `if key not in config: config[key] = value` step: on a dictionary that is the file's object over
   * some defaults without `key`, the step adds `key` to the defaults.
   */
  lemma SetDefault(m: map<string, Value>, d: map<string, Value>, obj: map<string, Value>, k: string, v: Value)
    requires m == d + obj && k !in d
    ensures k in m ==> m == d[k := v] + obj
    ensures k !in m ==> m[k := v] == d[k := v] + obj
  {
  }

  /** The window's settings dictionary, `self.config`. */
  class DownloaderApp {
    var config: map<string, Value>
    /** `DEFAULT_DOWNLOAD_DIR`: the `مجلد_التنزيلات` folder under the working directory. */
    const defaultDir: string

    /** `__init__`, as far as the settings go: it loads them from `src` through `load_config()`. */
    constructor (defaultDir: string, src: ConfigSource)
      ensures this.defaultDir == defaultDir && config == LoadedConfig(src, defaultDir)
    {
      this.defaultDir := defaultDir;
      config := map[];
      new;
      LoadConfig(src);
    }

    /** `load_config()`: the file's object, completed key by key, or the defaults. */
    method LoadConfig(src: ConfigSource)
      modifies this
      ensures config == LoadedConfig(src, defaultDir)
    {
      if src.Loaded? {
        config := src.obj;
        assert config == map[] + src.obj;
        SetDefault(config, map[], src.obj, SaveDirKey, JString(defaultDir));
        if SaveDirKey !in config { config := config[SaveDirKey := JString(defaultDir)]; }
        SetDefault(config, map[SaveDirKey := JString(defaultDir)], src.obj, FormatKey, JString("mp4"));
        if FormatKey !in config { config := config[FormatKey := JString("mp4")]; }
        SetDefault(config, map[SaveDirKey := JString(defaultDir), FormatKey := JString("mp4")], src.obj,
                   QualityKey, JString("متوسطة"));
        if QualityKey !in config { config := config[QualityKey := JString("متوسطة")]; }
        SetDefault(config, map[SaveDirKey := JString(defaultDir), FormatKey := JString("mp4"),
                               QualityKey := JString("متوسطة")], src.obj, SubtitlesKey, JBool(false));
        if SubtitlesKey !in config { config := config[SubtitlesKey := JBool(false)]; }
        return;
      }
      config := Defaults(defaultDir);
    }
  }

  /** After loading, the window can read all four settings. */
  lemma LoadedHasAllKeys(src: ConfigSource, defaultDir: string)
    ensures Keys <= LoadedConfig(src, defaultDir).Keys
  {
  }

  /**
   * Loading is stable: a file holding what a load produced loads to the same settings, and a file that
   * already has the four settings is taken as it is.
   */
  lemma LoadStable(src: ConfigSource, defaultDir: string)
    ensures LoadedConfig(Loaded(LoadedConfig(src, defaultDir)), defaultDir) == LoadedConfig(src, defaultDir)
    ensures src.Loaded? && Keys <= src.obj.Keys ==> LoadedConfig(src, defaultDir) == src.obj
  {
    var c := LoadedConfig(src, defaultDir);
    assert LoadedConfig(Loaded(c), defaultDir).Keys == c.Keys;
    if src.Loaded? && Keys <= src.obj.Keys {
      assert LoadedConfig(src, defaultDir).Keys == src.obj.Keys;
    }
  }
}
