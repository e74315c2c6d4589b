/** utils/gui.py: the settings form's placeholder cleaning (`create_input`) and the
    trim-and-validate step of `ConfigGUI.save`. Widgets, layout and the list of languages
    are not modelled; what the user typed arrives as strings. */
module Gui {
  import opened Python
  import opened Reader

  /** `create_input`'s initial text: a value starting with `<` (a placeholder such as
      `<your api key>`) is shown empty, any other value as it is. */
  function CleanValue(v: string): (shown: string)
    ensures !StartsWith(shown, "<")
    ensures shown == v <==> !StartsWith(v, "<")
    ensures shown != v ==> shown == ""
  {
    if StartsWith(v, "<") then "" else v
  }

  /** What the form's four fields hold. */
  datatype Form = Form(apiKey: string, apiSecret: string, username: string, lang: string)

  /** `setup_ui`: the form opened on the tuple (username, key, secret, language); the three
      text entries are cleaned, the language selector takes the value as it is. */
  function InitialForm(current: (string, string, string, string)): (f: Form)
    ensures f.lang == current.3
    ensures f.apiKey == CleanValue(current.1)
    ensures f.apiSecret == CleanValue(current.2)
    ensures f.username == CleanValue(current.0)
  {
    Form(CleanValue(current.1), CleanValue(current.2), CleanValue(current.0), current.3)
  }

  /** The mapping `save` builds: key, secret and username trimmed, the language as chosen. */
  function ConfigData(f: Form): Yaml
  {
    Map(map["API" := Map(map["KEY" := Str(Strip(f.apiKey)), "SECRET" := Str(Strip(f.apiSecret))]),
            "APP" := Map(map["LANG" := Str(f.lang)]),
            "USER" := Map(map["USERNAME" := Str(Strip(f.username))])])
  }

  /** `save`: a warning and nothing else when a trimmed field is empty; otherwise the data
      goes to the callback and the window closes exactly when the callback says yes. */
  datatype SaveOutcome = Rejected | Submitted(data: Yaml, closed: bool)

  function Save(f: Form, onSave: Yaml -> bool): (r: SaveOutcome)
    ensures r.Rejected? <==> Strip(f.apiKey) == "" || Strip(f.apiSecret) == "" || Strip(f.username) == ""
    ensures r.Submitted? ==> r.data == ConfigData(f) && r.closed == onSave(r.data)
  {
    var data := ConfigData(f);
    if !(Strip(f.apiKey) != "" && Strip(f.apiSecret) != "" && Strip(f.username) != "") then Rejected
    else Submitted(data, onSave(data))
  }

  /** `save` and `load_config` apply the same completeness rule: the form is rejected
      exactly when the data it would write could not be loaded, and loading accepted data
      gives back the trimmed username, key and secret and the chosen language. */
  lemma SaveAgreesWithLoad(f: Form, onSave: Yaml -> bool)
    ensures Save(f, onSave).Rejected? <==> LoadConfig(Some(ConfigData(f))).Exit?
    ensures Save(f, onSave).Submitted? ==>
              LoadConfig(Some(ConfigData(f))) ==
              Loaded(Config(Str(Strip(f.username)), Str(Strip(f.apiKey)), Str(Strip(f.apiSecret)), Str(f.lang)))
  {
    LoadWellFormed(Strip(f.username), Strip(f.apiKey), Strip(f.apiSecret), Some(f.lang));
    assert ConfigData(f) ==
           Map(map["USER" := Map(map["USERNAME" := Str(Strip(f.username))]),
                   "API" := Map(map["KEY" := Str(Strip(f.apiKey)), "SECRET" := Str(Strip(f.apiSecret))]),
                   "APP" := Map(map["LANG" := Str(f.lang)])]);
  }

  /** Trimming twice trims nothing more. */
  lemma StripIdempotent(s: string)
    ensures Strip(Strip(s)) == Strip(s)
  {
    StripSpec(s);
    StripSpec(Strip(s));
  }

  /** The form reads the tuple in the order `load_config` returns it: opening the form on
      the values of saved data and saving it unchanged writes the same data again, unless
      a saved value starts with `<` and is therefore shown empty. */
  lemma ResaveIsStable(f: Form, onSave: Yaml -> bool, onResave: Yaml -> bool)
    requires Save(f, onSave).Submitted?
    requires !StartsWith(Strip(f.username), "<") && !StartsWith(Strip(f.apiKey), "<") &&
             !StartsWith(Strip(f.apiSecret), "<")
    ensures var (u, k, s) := (Strip(f.username), Strip(f.apiKey), Strip(f.apiSecret));
            LoadConfig(Some(ConfigData(f))) == Loaded(Config(Str(u), Str(k), Str(s), Str(f.lang))) &&
            Save(InitialForm((u, k, s, f.lang)), onResave) == Submitted(ConfigData(f), onResave(ConfigData(f)))
  {
    SaveAgreesWithLoad(f, onSave);
    StripIdempotent(f.username);
    StripIdempotent(f.apiKey);
    StripIdempotent(f.apiSecret);
  }

  /** A placeholder left in the file passes `load_config` (it is a non-empty string) but
      the form shows it empty, so saving the form as opened is rejected. */
  lemma PlaceholderLoadsButIsNotSaved(user: string, key: string, secret: string, lang: string,
                                      onSave: Yaml -> bool)
    requires user != "" && secret != "" && StartsWith(key, "<")
    ensures var doc := Map(map["USER" := Map(map["USERNAME" := Str(user)]),
                               "API" := Map(map["KEY" := Str(key), "SECRET" := Str(secret)]),
                               "APP" := Map(map["LANG" := Str(lang)])]);
            LoadConfig(Some(doc)).Loaded?
    ensures Save(InitialForm((user, key, secret, lang)), onSave).Rejected?
  {
    LoadWellFormed(user, key, secret, Some(lang));
    assert Strip("") == "";
  }
}
