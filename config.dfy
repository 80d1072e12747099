/** The settings object of config.py: fifteen attributes, loaded from a
    config.json object and written back in full. The file itself is an input
    (`ConfigFile`) on load and an output (`SaveOutcome`) on save. */
module Config {
  import opened JsonValues

  /** The fifteen attributes of a `Config` object. */
  datatype Field =
    | LmStudioBaseUrl | ApiKey | LastUsedModel | LoggingEnabled | SdCardPath
    | TtsBaseUrl | TtsModelName | TtsVoice | TtsExaggeration | TtsCfgWeight
    | TtsTemperature | TtsDevice | TtsDtype | TtsSeed | TtsChunked

  /** The config.json key of each attribute (the attribute's own name). */
  function Key(f: Field): string {
    match f
    case LmStudioBaseUrl => "lm_studio_base_url"
    case ApiKey => "api_key"
    case LastUsedModel => "last_used_model"
    case LoggingEnabled => "logging_enabled"
    case SdCardPath => "sd_card_path"
    case TtsBaseUrl => "tts_base_url"
    case TtsModelName => "tts_model_name"
    case TtsVoice => "tts_voice"
    case TtsExaggeration => "tts_exaggeration"
    case TtsCfgWeight => "tts_cfg_weight"
    case TtsTemperature => "tts_temperature"
    case TtsDevice => "tts_device"
    case TtsDtype => "tts_dtype"
    case TtsSeed => "tts_seed"
    case TtsChunked => "tts_chunked"
  }

  /** Every key save_config writes. */
  const Keys: set<string> :=
    {"lm_studio_base_url", "api_key", "last_used_model", "logging_enabled", "sd_card_path",
     "tts_base_url", "tts_model_name", "tts_voice", "tts_exaggeration", "tts_cfg_weight",
     "tts_temperature", "tts_device", "tts_dtype", "tts_seed", "tts_chunked"}

  /** The `defaults` table of load_config, in its order: these attributes are
      reset on every load, to the file's value or to the default. */
  const Defaults: seq<(Field, Json)> :=
    [(LastUsedModel, JNull), (LoggingEnabled, JBool(false)), (SdCardPath, JStr("/sd"))]

  predicate DefaultBacked(f: Field) {
    f == LastUsedModel || f == LoggingEnabled || f == SdCardPath
  }

  function DefaultOf(f: Field): Json
    requires DefaultBacked(f)
  {
    if f == LastUsedModel then JNull
    else if f == LoggingEnabled then JBool(false)
    else JStr("/sd")
  }

  /** The value of every attribute at one moment. */
  datatype Settings = Settings(
    lmStudioBaseUrl: Json, apiKey: Json, lastUsedModel: Json, loggingEnabled: Json,
    sdCardPath: Json, ttsBaseUrl: Json, ttsModelName: Json, ttsVoice: Json,
    ttsExaggeration: Json, ttsCfgWeight: Json, ttsTemperature: Json, ttsDevice: Json,
    ttsDtype: Json, ttsSeed: Json, ttsChunked: Json)
  {
    function Get(f: Field): Json {
      match f
      case LmStudioBaseUrl => lmStudioBaseUrl
      case ApiKey => apiKey
      case LastUsedModel => lastUsedModel
      case LoggingEnabled => loggingEnabled
      case SdCardPath => sdCardPath
      case TtsBaseUrl => ttsBaseUrl
      case TtsModelName => ttsModelName
      case TtsVoice => ttsVoice
      case TtsExaggeration => ttsExaggeration
      case TtsCfgWeight => ttsCfgWeight
      case TtsTemperature => ttsTemperature
      case TtsDevice => ttsDevice
      case TtsDtype => ttsDtype
      case TtsSeed => ttsSeed
      case TtsChunked => ttsChunked
    }

    /** Python's `setattr(self, Key(f), v)`: this attribute changes, no other. */
    function Set(f: Field, v: Json): (r: Settings)
      ensures r.Get(f) == v
      ensures forall g :: g != f ==> r.Get(g) == Get(g)
    {
      match f
      case LmStudioBaseUrl => this.(lmStudioBaseUrl := v)
      case ApiKey => this.(apiKey := v)
      case LastUsedModel => this.(lastUsedModel := v)
      case LoggingEnabled => this.(loggingEnabled := v)
      case SdCardPath => this.(sdCardPath := v)
      case TtsBaseUrl => this.(ttsBaseUrl := v)
      case TtsModelName => this.(ttsModelName := v)
      case TtsVoice => this.(ttsVoice := v)
      case TtsExaggeration => this.(ttsExaggeration := v)
      case TtsCfgWeight => this.(ttsCfgWeight := v)
      case TtsTemperature => this.(ttsTemperature := v)
      case TtsDevice => this.(ttsDevice := v)
      case TtsDtype => this.(ttsDtype := v)
      case TtsSeed => this.(ttsSeed := v)
      case TtsChunked => this.(ttsChunked := v)
    }
  }

  /** Two settings values agree when every attribute agrees. */
  lemma SettingsExt(a: Settings, b: Settings)
    requires forall f :: a.Get(f) == b.Get(f)
    ensures a == b
  {
    assert a.Get(LmStudioBaseUrl) == b.Get(LmStudioBaseUrl);
    assert a.Get(ApiKey) == b.Get(ApiKey);
    assert a.Get(LastUsedModel) == b.Get(LastUsedModel);
    assert a.Get(LoggingEnabled) == b.Get(LoggingEnabled);
    assert a.Get(SdCardPath) == b.Get(SdCardPath);
    assert a.Get(TtsBaseUrl) == b.Get(TtsBaseUrl);
    assert a.Get(TtsModelName) == b.Get(TtsModelName);
    assert a.Get(TtsVoice) == b.Get(TtsVoice);
    assert a.Get(TtsExaggeration) == b.Get(TtsExaggeration);
    assert a.Get(TtsCfgWeight) == b.Get(TtsCfgWeight);
    assert a.Get(TtsTemperature) == b.Get(TtsTemperature);
    assert a.Get(TtsDevice) == b.Get(TtsDevice);
    assert a.Get(TtsDtype) == b.Get(TtsDtype);
    assert a.Get(TtsSeed) == b.Get(TtsSeed);
    assert a.Get(TtsChunked) == b.Get(TtsChunked);
  }

  /** The attributes of a freshly constructed `Config()`. */
  const Fresh: Settings :=
    Settings(JNull, JNull, JNull, JBool(false), JStr("/sd"), JNull, JNull, JNull,
             JNull, JNull, JNull, JNull, JNull, JNull, JNull)

  /** What one attribute holds after load_config has applied a decoded
      config.json object `data` to settings `s`. */
  function LoadValue(s: Settings, data: map<string, Json>, f: Field): Json {
    if DefaultBacked(f) then
      if Key(f) in data then data[Key(f)] else DefaultOf(f)
    else if Key(f) in data then data[Key(f)]
    else s.Get(f)
  }

  /** `data.get(Key(f), default)`. */
  function GetOr(data: map<string, Json>, f: Field, default: Json): Json {
    if Key(f) in data then data[Key(f)] else default
  }

  /** The attributes after the `setattr` loop over the `defaults` table. */
  function WithDefaults(s: Settings, data: map<string, Json>): (r: Settings)
    ensures forall f :: r.Get(f) == if DefaultBacked(f) then GetOr(data, f, DefaultOf(f)) else s.Get(f)
  {
    s.(lastUsedModel := GetOr(data, LastUsedModel, JNull),
       loggingEnabled := GetOr(data, LoggingEnabled, JBool(false)),
       sdCardPath := GetOr(data, SdCardPath, JStr("/sd")))
  }

  /** The first `i` steps of the `setattr` loop over the `defaults` table. */
  function DefaultsPrefix(s: Settings, data: map<string, Json>, i: nat): Settings
    requires i <= |Defaults|
  {
    if i == 0 then s
    else DefaultsPrefix(s, data, i - 1).Set(Defaults[i - 1].0, GetOr(data, Defaults[i - 1].0, Defaults[i - 1].1))
  }

  lemma DefaultsPrefixComplete(s: Settings, data: map<string, Json>)
    ensures DefaultsPrefix(s, data, |Defaults|) == WithDefaults(s, data)
  {
    assert Defaults[0] == (LastUsedModel, JNull);
    assert Defaults[1] == (LoggingEnabled, JBool(false));
    assert Defaults[2] == (SdCardPath, JStr("/sd"));
    var s1 := DefaultsPrefix(s, data, 1);
    var s2 := DefaultsPrefix(s, data, 2);
    assert DefaultsPrefix(s, data, 0) == s;
    assert s1 == s.Set(LastUsedModel, GetOr(data, LastUsedModel, JNull));
    assert s2 == s1.Set(LoggingEnabled, GetOr(data, LoggingEnabled, JBool(false)));
    assert DefaultsPrefix(s, data, 3) == s2.Set(SdCardPath, GetOr(data, SdCardPath, JStr("/sd")));
    SettingsExt(DefaultsPrefix(s, data, 3), WithDefaults(s, data));
  }

  /** `if Key(f) in data: setattr(self, Key(f), data[Key(f)])`. */
  function SetIfPresent(s: Settings, data: map<string, Json>, f: Field): Settings
  {
    s.Set(f, GetOr(data, f, s.Get(f)))
  }

  /** The attributes after the twelve presence-checked assignments. */
  function WithPresent(s: Settings, data: map<string, Json>): (r: Settings)
    ensures forall f :: r.Get(f) == if !DefaultBacked(f) then GetOr(data, f, s.Get(f)) else s.Get(f)
  {
    s.(lmStudioBaseUrl := GetOr(data, LmStudioBaseUrl, s.lmStudioBaseUrl),
       apiKey := GetOr(data, ApiKey, s.apiKey),
       ttsBaseUrl := GetOr(data, TtsBaseUrl, s.ttsBaseUrl),
       ttsModelName := GetOr(data, TtsModelName, s.ttsModelName),
       ttsVoice := GetOr(data, TtsVoice, s.ttsVoice),
       ttsExaggeration := GetOr(data, TtsExaggeration, s.ttsExaggeration),
       ttsCfgWeight := GetOr(data, TtsCfgWeight, s.ttsCfgWeight),
       ttsTemperature := GetOr(data, TtsTemperature, s.ttsTemperature),
       ttsDevice := GetOr(data, TtsDevice, s.ttsDevice),
       ttsDtype := GetOr(data, TtsDtype, s.ttsDtype),
       ttsSeed := GetOr(data, TtsSeed, s.ttsSeed),
       ttsChunked := GetOr(data, TtsChunked, s.ttsChunked))
  }

  /** The attributes after load_config has applied `data` to `s` (before it
      validates them): each attribute as `LoadValue` says. */
  function Loaded(s: Settings, data: map<string, Json>): (r: Settings)
    ensures forall f :: r.Get(f) == LoadValue(s, data, f)
  {
    WithPresent(WithDefaults(s, data), data)
  }

  /** The state of config.json as load_config finds it. */
  datatype ConfigFile =
    | Missing                 // opening it raises OSError
    | Unparsable              // json.load raises
    | Decoded(top: Json)      // json.load returns this value

  /** Why the parse block failed; every such failure is re-raised as a
      ValueError. */
  datatype Reason =
    | NotJson
    | NotAnObject             // `data.get` on a decoded value that is not a dict
    | MissingRequired         // base URL or API key is None after loading
    | ApiKeyNotSliceable      // `self.api_key[:5]` in the success message raises

  datatype LoadError = NotFound | Invalid(reason: Reason)

  /** The validation that follows the assignments, including the slice
      `api_key[:5]` that only strings and lists allow. */
  function Validate(s: Settings): Option<LoadError> {
    if s.lmStudioBaseUrl == JNull || s.apiKey == JNull then Some(Invalid(MissingRequired))
    else if !(s.apiKey.JStr? || s.apiKey.JArr?) then Some(Invalid(ApiKeyNotSliceable))
    else None
  }

  /** The whole of load_config: the attributes afterwards and the ValueError
      raised, if any. */
  function LoadOutcome(s: Settings, file: ConfigFile): (Settings, Option<LoadError>) {
    match file
    case Missing => (s, Some(NotFound))
    case Unparsable => (s, Some(Invalid(NotJson)))
    case Decoded(top) =>
      if !top.JObj? then (s, Some(Invalid(NotAnObject)))
      else
        var s' := Loaded(s, top.fields);
        (s', Validate(s'))
  }

  /** The object save_config serialises: all fifteen keys, `None` values
      included. */
  function ToJson(s: Settings): (m: map<string, Json>)
    ensures forall f :: Key(f) in m && m[Key(f)] == s.Get(f)
  {
    map[
      "lm_studio_base_url" := s.lmStudioBaseUrl,
      "api_key" := s.apiKey,
      "last_used_model" := s.lastUsedModel,
      "logging_enabled" := s.loggingEnabled,
      "sd_card_path" := s.sdCardPath,
      "tts_base_url" := s.ttsBaseUrl,
      "tts_model_name" := s.ttsModelName,
      "tts_voice" := s.ttsVoice,
      "tts_exaggeration" := s.ttsExaggeration,
      "tts_cfg_weight" := s.ttsCfgWeight,
      "tts_temperature" := s.ttsTemperature,
      "tts_device" := s.ttsDevice,
      "tts_dtype" := s.ttsDtype,
      "tts_seed" := s.ttsSeed,
      "tts_chunked" := s.ttsChunked
    ]
  }

  /** save_config writes exactly the fifteen keys. */
  lemma ToJsonKeys(s: Settings)
    ensures ToJson(s).Keys == Keys
  {
  }

  datatype SaveOutcome = Written(data: map<string, Json>) | WriteFailed

  /** What save_config produces for the attributes `s`. */
  function SaveResult(s: Settings, writable: bool): SaveOutcome {
    if writable then Written(ToJson(s)) else WriteFailed
  }

  /** A `Config` object: its attributes are updated in place by load_config
      and, during the session, `last_used_model` by the /load command. */
  class Config {
    var lmStudioBaseUrl: Json
    var apiKey: Json
    var lastUsedModel: Json
    var loggingEnabled: Json
    var sdCardPath: Json
    var ttsBaseUrl: Json
    var ttsModelName: Json
    var ttsVoice: Json
    var ttsExaggeration: Json
    var ttsCfgWeight: Json
    var ttsTemperature: Json
    var ttsDevice: Json
    var ttsDtype: Json
    var ttsSeed: Json
    var ttsChunked: Json

    function State(): Settings
      reads this
    {
      Settings(lmStudioBaseUrl, apiKey, lastUsedModel, loggingEnabled, sdCardPath,
               ttsBaseUrl, ttsModelName, ttsVoice, ttsExaggeration, ttsCfgWeight,
               ttsTemperature, ttsDevice, ttsDtype, ttsSeed, ttsChunked)
    }

    constructor ()
      ensures State() == Fresh
    {
      lmStudioBaseUrl := JNull;
      apiKey := JNull;
      lastUsedModel := JNull;
      loggingEnabled := JBool(false);
      sdCardPath := JStr("/sd");
      ttsBaseUrl := JNull;
      ttsModelName := JNull;
      ttsVoice := JNull;
      ttsExaggeration := JNull;
      ttsCfgWeight := JNull;
      ttsTemperature := JNull;
      ttsDevice := JNull;
      ttsDtype := JNull;
      ttsSeed := JNull;
      ttsChunked := JNull;
    }

    /** Python's `setattr` on one attribute. */
    method SetAttr(f: Field, v: Json)
      modifies this
      ensures State() == old(State()).Set(f, v)
    {
      match f
      case LmStudioBaseUrl => lmStudioBaseUrl := v;
      case ApiKey => apiKey := v;
      case LastUsedModel => lastUsedModel := v;
      case LoggingEnabled => loggingEnabled := v;
      case SdCardPath => sdCardPath := v;
      case TtsBaseUrl => ttsBaseUrl := v;
      case TtsModelName => ttsModelName := v;
      case TtsVoice => ttsVoice := v;
      case TtsExaggeration => ttsExaggeration := v;
      case TtsCfgWeight => ttsCfgWeight := v;
      case TtsTemperature => ttsTemperature := v;
      case TtsDevice => ttsDevice := v;
      case TtsDtype => ttsDtype := v;
      case TtsSeed => ttsSeed := v;
      case TtsChunked => ttsChunked := v;
    }

    /** load_config over the file's state: the attributes become
        `LoadOutcome(...).0` and the raised ValueError is returned. Validation
        runs after the assignments, so a failed validation leaves the
        attributes already overwritten. */
    method LoadConfig(file: ConfigFile) returns (err: Option<LoadError>)
      modifies this
      ensures (State(), err) == LoadOutcome(old(State()), file)
    {
      if file.Missing? {
        return Some(NotFound);
      }
      if file.Unparsable? {
        return Some(Invalid(NotJson));
      }
      if !file.top.JObj? {
        return Some(Invalid(NotAnObject));
      }
      var data := file.top.fields;
      ApplyDefaults(data);
      ApplyPresent(data);
      if lmStudioBaseUrl == JNull || apiKey == JNull {
        return Some(Invalid(MissingRequired));
      }
      if !(apiKey.JStr? || apiKey.JArr?) {
        return Some(Invalid(ApiKeyNotSliceable));
      }
      return None;
    }

    /** The `setattr` loop over the `defaults` table. */
    method ApplyDefaults(data: map<string, Json>)
      modifies this
      ensures State() == WithDefaults(old(State()), data)
    {
      var i := 0;
      while i < |Defaults|
        invariant 0 <= i <= |Defaults|
        invariant State() == DefaultsPrefix(old(State()), data, i)
      {
        var (f, default) := Defaults[i];
        SetAttr(f, if Key(f) in data then data[Key(f)] else default);
        i := i + 1;
      }
      DefaultsPrefixComplete(old(State()), data);
    }

    /** `if key in data: self.attr = data[key]`. */
    method AssignIfPresent(data: map<string, Json>, f: Field)
      modifies this
      ensures State() == SetIfPresent(old(State()), data, f)
    {
      if Key(f) in data {
        SetAttr(f, data[Key(f)]);
      } else {
        SettingsExt(SetIfPresent(old(State()), data, f), old(State()));
      }
    }

    /** The presence-checked assignments of the remaining twelve attributes. */
    method ApplyPresent(data: map<string, Json>)
      modifies this
      ensures State() == WithPresent(old(State()), data)
    {
      ApplyServerKeys(data);
      ApplyTuningKeys(data);
    }

    /** The first five presence-checked assignments: the model server and the
        TTS server, model and voice. */
    method ApplyServerKeys(data: map<string, Json>)
      modifies this
      ensures State() == old(State()).(
        lmStudioBaseUrl := GetOr(data, LmStudioBaseUrl, old(lmStudioBaseUrl)),
        apiKey := GetOr(data, ApiKey, old(apiKey)),
        ttsBaseUrl := GetOr(data, TtsBaseUrl, old(ttsBaseUrl)),
        ttsModelName := GetOr(data, TtsModelName, old(ttsModelName)),
        ttsVoice := GetOr(data, TtsVoice, old(ttsVoice)))
    {
      ghost var t := State();
      AssignIfPresent(data, LmStudioBaseUrl);
      assert State() == t.(lmStudioBaseUrl := GetOr(data, LmStudioBaseUrl, t.lmStudioBaseUrl));
      t := State();
      AssignIfPresent(data, ApiKey);
      assert State() == t.(apiKey := GetOr(data, ApiKey, t.apiKey));
      t := State();
      AssignIfPresent(data, TtsBaseUrl);
      assert State() == t.(ttsBaseUrl := GetOr(data, TtsBaseUrl, t.ttsBaseUrl));
      t := State();
      AssignIfPresent(data, TtsModelName);
      assert State() == t.(ttsModelName := GetOr(data, TtsModelName, t.ttsModelName));
      t := State();
      AssignIfPresent(data, TtsVoice);
      assert State() == t.(ttsVoice := GetOr(data, TtsVoice, t.ttsVoice));
    }

    /** The last seven presence-checked assignments: the TTS tuning values. */
    method ApplyTuningKeys(data: map<string, Json>)
      modifies this
      ensures State() == old(State()).(
        ttsExaggeration := GetOr(data, TtsExaggeration, old(ttsExaggeration)),
        ttsCfgWeight := GetOr(data, TtsCfgWeight, old(ttsCfgWeight)),
        ttsTemperature := GetOr(data, TtsTemperature, old(ttsTemperature)),
        ttsDevice := GetOr(data, TtsDevice, old(ttsDevice)),
        ttsDtype := GetOr(data, TtsDtype, old(ttsDtype)),
        ttsSeed := GetOr(data, TtsSeed, old(ttsSeed)),
        ttsChunked := GetOr(data, TtsChunked, old(ttsChunked)))
    {
      ghost var t := State();
      AssignIfPresent(data, TtsExaggeration);
      assert State() == t.(ttsExaggeration := GetOr(data, TtsExaggeration, t.ttsExaggeration));
      t := State();
      AssignIfPresent(data, TtsCfgWeight);
      assert State() == t.(ttsCfgWeight := GetOr(data, TtsCfgWeight, t.ttsCfgWeight));
      t := State();
      AssignIfPresent(data, TtsTemperature);
      assert State() == t.(ttsTemperature := GetOr(data, TtsTemperature, t.ttsTemperature));
      t := State();
      AssignIfPresent(data, TtsDevice);
      assert State() == t.(ttsDevice := GetOr(data, TtsDevice, t.ttsDevice));
      t := State();
      AssignIfPresent(data, TtsDtype);
      assert State() == t.(ttsDtype := GetOr(data, TtsDtype, t.ttsDtype));
      t := State();
      AssignIfPresent(data, TtsSeed);
      assert State() == t.(ttsSeed := GetOr(data, TtsSeed, t.ttsSeed));
      t := State();
      AssignIfPresent(data, TtsChunked);
      assert State() == t.(ttsChunked := GetOr(data, TtsChunked, t.ttsChunked));
    }

    /** save_config: the dictionary of all fifteen attributes is written when
        the file can be written; a failure is only reported, and no attribute
        changes either way. */
    method SaveConfig(writable: bool) returns (r: SaveOutcome)
      ensures r.Written? <==> writable
      ensures r.Written? ==> r.data.Keys == Keys
      ensures r.Written? ==> forall f :: r.data[Key(f)] == State().Get(f)
      ensures r == SaveResult(State(), writable)
    {
      var data := ToJson(State());
      ToJsonKeys(State());
      if writable {
        r := Written(data);
      } else {
        r := WriteFailed;
      }
    }
  }

  /** A fresh object has every optional attribute None, logging off and the
      default SD card path. */
  lemma FreshDefaults(f: Field)
    ensures Fresh.Get(f) == if f == LoggingEnabled then JBool(false)
                            else if f == SdCardPath then JStr("/sd")
                            else JNull
  {
  }

  /** `last_used_model`, `logging_enabled` and `sd_card_path` are taken from
      the file when present and otherwise reset to their defaults, whatever
      they held before. */
  lemma LoadResetsDefaultBacked(s: Settings, t: Settings, data: map<string, Json>, f: Field)
    requires DefaultBacked(f)
    ensures Loaded(s, data).Get(f) == Loaded(t, data).Get(f)
    ensures Key(f) in data ==> Loaded(s, data).Get(f) == data[Key(f)]
    ensures Key(f) !in data ==> Loaded(s, data).Get(f) == DefaultOf(f)
  {
  }

  /** The other twelve attributes change only when their key is present. */
  lemma LoadKeepsAbsent(s: Settings, data: map<string, Json>, f: Field)
    requires !DefaultBacked(f)
    ensures Key(f) in data ==> Loaded(s, data).Get(f) == data[Key(f)]
    ensures Key(f) !in data ==> Loaded(s, data).Get(f) == s.Get(f)
  {
  }

  /** Loading the same object twice has the effect of loading it once. */
  lemma LoadIdempotent(s: Settings, data: map<string, Json>)
    ensures Loaded(Loaded(s, data), data) == Loaded(s, data)
  {
    SettingsExt(Loaded(Loaded(s, data), data), Loaded(s, data));
  }

  /** Saving and loading reproduces every attribute, whatever the object held
      before the load; the load succeeds exactly when the saved base URL is
      set and the saved API key is a string or a list. */
  lemma SaveLoadRoundTrip(s: Settings, prior: Settings)
    ensures LoadOutcome(prior, Decoded(JObj(ToJson(s)))).0 == s
    ensures LoadOutcome(prior, Decoded(JObj(ToJson(s)))).1 == None <==>
              s.lmStudioBaseUrl != JNull && (s.apiKey.JStr? || s.apiKey.JArr?)
  {
    LoadOfObject(prior, ToJson(s));
    LoadsSaved(s, prior);
  }

  /** Loading a file that decodes to an object applies it and validates the
      result. */
  lemma LoadOfObject(prior: Settings, data: map<string, Json>)
    ensures LoadOutcome(prior, Decoded(JObj(data))) == (Loaded(prior, data), Validate(Loaded(prior, data)))
  {
  }

  /** The assignments applied to a saved object restore every attribute. */
  lemma LoadsSaved(s: Settings, prior: Settings)
    ensures Loaded(prior, ToJson(s)) == s
  {
    LoadsEveryKey(s, prior, ToJson(s));
  }

  /** An object that holds every key with `s`'s value loads as `s`. */
  lemma LoadsEveryKey(s: Settings, prior: Settings, data: map<string, Json>)
    requires forall f :: Key(f) in data && data[Key(f)] == s.Get(f)
    ensures Loaded(prior, data) == s
  {
    var r := Loaded(prior, data);
    forall f ensures r.Get(f) == s.Get(f) {
      assert r.Get(f) == LoadValue(prior, data, f);
      assert Key(f) in data;
    }
    SettingsExt(r, s);
  }

  /** From a fresh object a load succeeds exactly when the file is a JSON
      object whose base URL is present and not null and whose API key is
      present and a string or a list. */
  lemma FreshLoadSucceedsIff(file: ConfigFile)
    ensures LoadOutcome(Fresh, file).1 == None <==>
      && file.Decoded? && file.top.JObj?
      && "lm_studio_base_url" in file.top.fields && file.top.fields["lm_studio_base_url"] != JNull
      && "api_key" in file.top.fields
      && (file.top.fields["api_key"].JStr? || file.top.fields["api_key"].JArr?)
  {
  }

  /** Every failure before the assignments leaves the attributes untouched;
      a failed validation does not. */
  lemma LoadFailureFootprint(s: Settings, file: ConfigFile)
    ensures !file.Decoded? || !file.top.JObj? ==> LoadOutcome(s, file).0 == s
    ensures file.Decoded? && file.top.JObj? ==>
              LoadOutcome(s, file).0 == Loaded(s, file.top.fields)
  {
  }

  /** A file that names only the SD card path fails validation on a fresh
      object, yet the path has already been taken over. */
  lemma PartialUpdateOnFailure()
    ensures LoadOutcome(Fresh, Decoded(JObj(map["sd_card_path" := JStr("/card")]))).1
              == Some(Invalid(MissingRequired))
    ensures LoadOutcome(Fresh, Decoded(JObj(map["sd_card_path" := JStr("/card")]))).0.sdCardPath
              == JStr("/card")
  {
  }
}
