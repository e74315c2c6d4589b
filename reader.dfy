/** utils/reader.py: `load_config` as validation over an already-parsed YAML document,
    and the file-name rule of `load_translations`. Opening and parsing files is not
    modelled: a document that cannot be opened or parsed arrives as `None`. */
module Reader {
  import opened Python

  /** A value as `yaml.safe_load` hands it back (mapping keys restricted to strings). */
  datatype Yaml =
    | Null
    | Bool(b: bool)
    | Int(i: int)
    | Str(s: string)
    | List(items: seq<Yaml>)
    | Map(entries: map<string, Yaml>)

  /** Python truthiness of a parsed value. */
  predicate Truthy(y: Yaml)
  {
    match y
    case Null => false
    case Bool(b) => b
    case Int(i) => i != 0
    case Str(s) => s != ""
    case List(items) => |items| > 0
    case Map(entries) => |entries| > 0
  }

  /** The language used when the `APP` section names none. */
  const DefaultLang := "en-US"

  /** The four values `load_config` hands back, in its order. */
  datatype Config = Config(username: Yaml, apiKey: Yaml, apiSecret: Yaml, appLang: Yaml)

  /** Either the values, or the process exit (`sys.exit`) with its status. */
  datatype LoadResult = Loaded(config: Config) | Exit(status: int)

  /** `d.get(key, default)` on a mapping. */
  function Get(entries: map<string, Yaml>, key: string, default: Yaml): Yaml
  {
    if key in entries then entries[key] else default
  }

  /** `config.get(name, {})` followed by a `.get`: the section's entries, or `None` when
      the document or the section is not a mapping (the `AttributeError` that follows). */
  function Section(config: Yaml, name: string): (r: Option<map<string, Yaml>>)
    ensures r.Some? ==> config.Map?
    ensures config.Map? && name !in config.entries ==> r == Some(map[])
    ensures config.Map? && name in config.entries ==>
              (r.Some? <==> config.entries[name].Map?) && (r.Some? ==> r.value == config.entries[name].entries)
  {
    if !config.Map? then None
    else match Get(config.entries, name, Map(map[]))
      case Map(entries) => Some(entries)
      case _ => None
  }

  /** `load_config`: the username, key and secret must all be truthy; the language
      defaults to `en-US`; every failure ends the process with status 1. */
  function LoadConfig(parsed: Option<Yaml>): (r: LoadResult)
    ensures r.Exit? ==> r.status == 1
    ensures r.Loaded? ==> parsed.Some? && parsed.value.Map?
    ensures r.Loaded? ==> Truthy(r.config.username) && Truthy(r.config.apiKey) && Truthy(r.config.apiSecret)
  {
    if parsed.None? then Exit(1)
    else
      var user := Section(parsed.value, "USER");
      var api := Section(parsed.value, "API");
      var app := Section(parsed.value, "APP");
      if user.None? || api.None? || app.None? then Exit(1)
      else
        var username := Get(user.value, "USERNAME", Null);
        var apiKey := Get(api.value, "KEY", Null);
        var apiSecret := Get(api.value, "SECRET", Null);
        var appLang := Get(app.value, "LANG", Str(DefaultLang));
        if !(Truthy(username) && Truthy(apiKey) && Truthy(apiSecret)) then Exit(1)
        else Loaded(Config(username, apiKey, apiSecret, appLang))
  }

  /** A well-formed document: the three sections are mappings and the three required
      values are strings. `load_config` accepts it exactly when none of them is empty, and
      then returns them in the order username, key, secret, language. */
  lemma LoadWellFormed(user: string, key: string, secret: string, lang: Option<string>)
    ensures var app := if lang.Some? then map["LANG" := Str(lang.value)] else map[];
            var doc := Map(map["USER" := Map(map["USERNAME" := Str(user)]),
                                "API" := Map(map["KEY" := Str(key), "SECRET" := Str(secret)]),
                                "APP" := Map(app)]);
            var r := LoadConfig(Some(doc));
            (r.Loaded? <==> user != "" && key != "" && secret != "") &&
            (r.Loaded? ==> r.config == Config(Str(user), Str(key), Str(secret),
                                              Str(if lang.Some? then lang.value else DefaultLang)))
  {
  }

  /** A missing section counts as an empty mapping, so a missing `APP` section (or a
      missing `LANG` in it) yields the default language and nothing else fails. */
  lemma MissingLangDefaults(m: map<string, Yaml>)
    requires LoadConfig(Some(Map(m))).Loaded?
    requires "APP" !in m || (m["APP"].Map? && "LANG" !in m["APP"].entries)
    ensures LoadConfig(Some(Map(m))).config.appLang == Str(DefaultLang)
  {
  }

  /** A section that is present but not a mapping (an empty `USER:` parses as null)
      is not treated as missing: the `.get` on it raises and the process exits. */
  lemma NonMappingSectionExits(m: map<string, Yaml>, name: string)
    requires name in {"USER", "API", "APP"} && name in m && !m[name].Map?
    ensures LoadConfig(Some(Map(m))) == Exit(1)
  {
  }

  /** Top-level keys other than the three sections do not change the outcome. */
  lemma OtherKeysIgnored(m: map<string, Yaml>, k: string, v: Yaml)
    requires k !in {"USER", "API", "APP"}
    ensures LoadConfig(Some(Map(m[k := v]))) == LoadConfig(Some(Map(m)))
  {
    assert Section(Map(m[k := v]), "USER") == Section(Map(m), "USER");
    assert Section(Map(m[k := v]), "API") == Section(Map(m), "API");
    assert Section(Map(m[k := v]), "APP") == Section(Map(m), "APP");
  }

  /** `os.path.join(directory, lang + ".yaml")` with POSIX rules: an absolute second part
      replaces the directory; otherwise a separator is inserted unless the directory is
      empty or already ends with one. */
  function TranslationsPath(directory: string, lang: string): (path: string)
    ensures var file := lang + ".yaml";
            |path| >= |file| && path[|path| - |file|..] == file
  {
    var file := lang + ".yaml";
    if StartsWith(file, "/") then file
    else if directory == [] || directory[|directory| - 1] == '/' then directory + file
    else directory + "/" + file
  }

  /** A relative language code is looked up inside the translations directory, as the
      file `<lang>.yaml` directly under it. */
  lemma TranslationsUnderDirectory(directory: string, lang: string)
    requires directory != [] && directory[|directory| - 1] != '/'
    requires lang == [] || lang[0] != '/'
    ensures TranslationsPath(directory, lang) == directory + "/" + lang + ".yaml"
  {
    var file := lang + ".yaml";
    assert !StartsWith(file, "/") by {
      assert file[0] != '/' by {
        if lang == [] { assert file[0] == '.'; } else { assert file[0] == lang[0]; }
      }
    }
  }
}
