/** tts_generate_audio and the temp-file sequence that follows it: each
    setting falls back to a default through `or`, bytes come back only on
    status 200, and a written file is always played and then removed. */
module Speech {
  import opened JsonValues
  import opened Requests
  import opened Effects
  import opened Config

  /** The TTS server's reply: a status and the raw content, or a raised
      exception. */
  datatype AudioReply = AudioResponse(status: int, content: Bytes) | AudioRaised

  const SpeechPath: string := "/v1/audio/speech"
  const DefaultTtsModel: string := "chatterbox"
  const DefaultVoice: string := "voices/chatterbox/whywishnotfar.wav"

  /** The `params` object: the resolved settings and the fixed tuning values.
      `chunked` is the attribute itself; `getattr`'s default never applies
      because the attribute always exists. */
  function TtsParams(s: Settings): Json {
    JObj(map[
      "desired_length" := JInt(100),
      "max_length" := JInt(300),
      "halve_first_chunk" := JBool(true),
      "exaggeration" := Or(s.ttsExaggeration, JFloat("0.4", false)),
      "cfg_weight" := Or(s.ttsCfgWeight, JFloat("0.5", false)),
      "temperature" := Or(s.ttsTemperature, JFloat("0.6", false)),
      "device" := Or(s.ttsDevice, JStr("auto")),
      "dtype" := Or(s.ttsDtype, JStr("float16")),
      "cpu_offload" := JBool(false),
      "chunked" := s.ttsChunked,
      "cache_voice" := JBool(false),
      "tokens_per_slice" := JNull,
      "remove_milliseconds" := JNull,
      "remove_milliseconds_start" := JNull,
      "chunk_overlap_method" := JStr("undefined"),
      "seed" := Or(s.ttsSeed, JInt(-1)),
      "use_compilation" := JBool(true),
      "max_new_tokens" := JInt(1000),
      "max_cache_len" := JInt(1500)
    ])
  }

  /** The JSON body: model, voice and text, the fixed format, speed and
      stream fields, and `params`. */
  function TtsPayload(s: Settings, text: Json): Json {
    JObj(map[
      "model" := Or(s.ttsModelName, JStr(DefaultTtsModel)),
      "voice" := Or(s.ttsVoice, JStr(DefaultVoice)),
      "input" := text,
      "response_format" := JStr("wav"),
      "speed" := JInt(1),
      "stream" := JBool(true),
      "params" := TtsParams(s)
    ])
  }

  /** JSON content, any accepted type, and the conditional `Authorization`. */
  function TtsHeaders(key: string): (h: map<string, string>)
    ensures h.Keys <= {"Content-Type", "Accept", "Authorization"}
    ensures "Content-Type" in h && h["Content-Type"] == "application/json"
    ensures "Accept" in h && h["Accept"] == "*/*"
    ensures ConditionalAuth(h, key)
  {
    map["Content-Type" := "application/json", "Accept" := "*/*"] + AuthHeader(key)
  }

  /** The POST to `tts_base_url + "/v1/audio/speech"`. */
  function TtsRequest(s: Settings, text: Json): (r: Request)
    requires s.apiKey.JStr?
    ensures r.Post? && r.url == PyStr(s.ttsBaseUrl) + "/v1/audio/speech"
    ensures r.body == TtsPayload(s, text) && r.headers == TtsHeaders(s.apiKey.s)
  {
    Post(PyStr(s.ttsBaseUrl) + SpeechPath, TtsPayload(s, text), TtsHeaders(s.apiKey.s))
  }

  /** The request tts_generate_audio sends, if any, and the bytes it returns,
      if any. */
  datatype Tts = Tts(sent: Option<Request>, audio: Option<Bytes>)

  /** tts_generate_audio. With no TTS base URL it returns at once; with an
      https model server the TTS session was never created, so the call fails
      before sending anything. */
  function GenerateAudio(s: Settings, text: Json, https: bool, reply: AudioReply): (r: Tts)
    requires s.apiKey.JStr?
    ensures r.sent.Some? <==> Truthy(s.ttsBaseUrl) && !https
    ensures r.sent.Some? ==> r.sent.value == TtsRequest(s, text)
    ensures r.audio.Some? <==> r.sent.Some? && reply.AudioResponse? && reply.status == 200
    ensures r.audio.Some? ==> r.audio.value == reply.content
  {
    if !Truthy(s.ttsBaseUrl) || https then Tts(None, None)
    else
      var request := TtsRequest(s, text);
      match reply
      case AudioResponse(status, content) =>
        if status == 200 then Tts(Some(request), Some(content)) else Tts(Some(request), None)
      case AudioRaised => Tts(Some(request), None)
  }

  function TempAudioPath(s: Settings): string {
    PyStr(s.sdCardPath) + "/temp_audio.wav"
  }

  /** `if audio_bytes:` write the file, play it, remove it. A failed open
      raises before anything exists; a write that raises after the open
      skips playback and removal, so the file stays behind. play_audio
      swallows its own errors, so removal is always attempted after it. */
  function AudioFileOps(path: string, audio: Option<Bytes>, write: AudioWrite): (ops: seq<Effect>)
    ensures ops != [] <==> audio.Some? && audio.value != [] && !write.OpenFails?
    ensures ops != [] && write.WriteCompletes? ==>
              ops == [WriteAudio(path, audio.value), PlayAudio(path), RemoveAudio(path)]
    ensures ops != [] && write.WriteRaises? ==> ops == [WriteAudio(path, audio.value)]
  {
    if audio.Some? && audio.value != [] then
      match write
      case WriteCompletes => [WriteAudio(path, audio.value), PlayAudio(path), RemoveAudio(path)]
      case WriteRaises => [WriteAudio(path, audio.value)]
      case OpenFails => []
    else []
  }

  /** Everything the TTS block after an assistant reply does. `len()` of the
      content raises for a number, a boolean or null, which skips the block. */
  function SpeechEffects(s: Settings, content: Json, https: bool, reply: AudioReply, write: AudioWrite): seq<Effect>
    requires s.apiKey.JStr?
  {
    if !Sized(content) then []
    else
      var t := GenerateAudio(s, content, https, reply);
      (if t.sent.Some? then [Http(t.sent.value)] else []) + AudioFileOps(TempAudioPath(s), t.audio, write)
  }

  /** For content with a length, the request sent, if any, then the file
      operations on the bytes returned. */
  lemma SpeechEffectsOf(s: Settings, content: Json, https: bool, reply: AudioReply, write: AudioWrite)
    requires s.apiKey.JStr? && Sized(content)
    ensures var t := GenerateAudio(s, content, https, reply);
      SpeechEffects(s, content, https, reply, write)
      == (if t.sent.Some? then [Http(t.sent.value)] else []) + AudioFileOps(TempAudioPath(s), t.audio, write)
  {
  }

  /** Without a TTS base URL, or with an https model server, or for content
      without a length, nothing is sent and no file is touched. */
  lemma NoSpeechWithout(s: Settings, content: Json, https: bool, reply: AudioReply, write: AudioWrite)
    requires s.apiKey.JStr?
    ensures SpeechEffects(s, content, https, reply, write) == [] <==>
              !Sized(content) || !Truthy(s.ttsBaseUrl) || https
  {
  }

  /** A file is written only with the bytes of a 200 reply to the request
      just sent, at `sd_card_path + "/temp_audio.wav"`; when the write
      completes it is then played and removed, in that order. */
  lemma FileOnlyFrom200(s: Settings, content: Json, https: bool, reply: AudioReply, write: AudioWrite)
    requires s.apiKey.JStr?
    ensures var e := SpeechEffects(s, content, https, reply, write);
      |e| > 1 ==>
        && reply.AudioResponse? && reply.status == 200 && reply.content != [] && !write.OpenFails?
        && e == [Http(TtsRequest(s, content)), WriteAudio(TempAudioPath(s), reply.content)]
                + (if write.WriteCompletes? then [PlayAudio(TempAudioPath(s)), RemoveAudio(TempAudioPath(s))] else [])
  {
  }

  /** Every playback is followed at once by the removal of the same file. */
  lemma RemoveFollowsPlay(path: string, audio: Option<Bytes>, write: AudioWrite)
    ensures var ops := AudioFileOps(path, audio, write);
      forall i :: 0 <= i < |ops| && ops[i].PlayAudio? ==> i + 1 < |ops| && ops[i + 1] == RemoveAudio(ops[i].path)
  {
  }

  /** The temp file is left on the card, written but never removed, exactly
      when its write raises after the open; then it is not played either. */
  lemma LeftOnCard(path: string, audio: Option<Bytes>, write: AudioWrite)
    ensures var ops := AudioFileOps(path, audio, write);
      && ((ops != [] && RemoveAudio(path) !in ops) <==> audio.Some? && audio.value != [] && write.WriteRaises?)
      && (PlayAudio(path) in ops <==> RemoveAudio(path) in ops)
  {
  }

  /** The request goes to the TTS base URL's speech endpoint. */
  lemma SpeechUrl(s: Settings, text: Json)
    requires s.apiKey.JStr? && s.ttsBaseUrl.JStr?
    ensures TtsRequest(s, text).url == s.ttsBaseUrl.s + "/v1/audio/speech"
  {
  }

  /** Unset settings fall back to the defaults, except `tts_chunked`, which
      is sent as None rather than True. */
  lemma FreshPayload(text: Json)
    ensures var p := TtsPayload(Fresh, text).fields;
      && p["model"] == JStr("chatterbox")
      && p["voice"] == JStr("voices/chatterbox/whywishnotfar.wav")
      && p["input"] == text
  {
  }

  lemma FreshParams()
    ensures var q := TtsParams(Fresh).fields;
      && q["device"] == JStr("auto")
      && q["dtype"] == JStr("float16")
      && q["seed"] == JInt(-1)
      && q["chunked"] == JNull
  {
  }

  /** For any settings, the model and the voice are sent as configured when
      truthy and fall back to the defaults when falsy (`None`, `""`, `0`,
      `False`); the text is sent unchanged. */
  lemma PayloadFallbacks(s: Settings, text: Json)
    ensures var p := TtsPayload(s, text).fields;
      && (Truthy(s.ttsModelName) ==> p["model"] == s.ttsModelName)
      && (!Truthy(s.ttsModelName) ==> p["model"] == JStr(DefaultTtsModel))
      && (Truthy(s.ttsVoice) ==> p["voice"] == s.ttsVoice)
      && (!Truthy(s.ttsVoice) ==> p["voice"] == JStr(DefaultVoice))
      && p["input"] == text
  {
  }

  /** For any settings, each tuning value is sent as configured when truthy
      and falls back to its default when falsy; `chunked` is sent as it is. */
  lemma ParamsFallbacks(s: Settings)
    ensures var q := TtsParams(s).fields;
      && (Truthy(s.ttsExaggeration) ==> q["exaggeration"] == s.ttsExaggeration)
      && (!Truthy(s.ttsExaggeration) ==> q["exaggeration"] == JFloat("0.4", false))
      && (Truthy(s.ttsCfgWeight) ==> q["cfg_weight"] == s.ttsCfgWeight)
      && (!Truthy(s.ttsCfgWeight) ==> q["cfg_weight"] == JFloat("0.5", false))
      && (Truthy(s.ttsTemperature) ==> q["temperature"] == s.ttsTemperature)
      && (!Truthy(s.ttsTemperature) ==> q["temperature"] == JFloat("0.6", false))
      && (Truthy(s.ttsDevice) ==> q["device"] == s.ttsDevice)
      && (!Truthy(s.ttsDevice) ==> q["device"] == JStr("auto"))
      && (Truthy(s.ttsDtype) ==> q["dtype"] == s.ttsDtype)
      && (!Truthy(s.ttsDtype) ==> q["dtype"] == JStr("float16"))
      && (Truthy(s.ttsSeed) ==> q["seed"] == s.ttsSeed)
      && (!Truthy(s.ttsSeed) ==> q["seed"] == JInt(-1))
      && q["chunked"] == s.ttsChunked
  {
    TuningParams(s);
    DeviceParams(s);
  }

  /** The sampling values of `params` are the settings `or` their defaults. */
  lemma TuningParams(s: Settings)
    ensures var q := TtsParams(s).fields;
      && q["exaggeration"] == Or(s.ttsExaggeration, JFloat("0.4", false))
      && q["cfg_weight"] == Or(s.ttsCfgWeight, JFloat("0.5", false))
      && q["temperature"] == Or(s.ttsTemperature, JFloat("0.6", false))
  {
  }

  /** The device, dtype and seed of `params` are the settings `or` their
      defaults; `chunked` is the setting. */
  lemma DeviceParams(s: Settings)
    ensures var q := TtsParams(s).fields;
      && q["device"] == Or(s.ttsDevice, JStr("auto"))
      && q["dtype"] == Or(s.ttsDtype, JStr("float16"))
      && q["seed"] == Or(s.ttsSeed, JInt(-1))
      && q["chunked"] == s.ttsChunked
  {
  }

  /** The body carries exactly the seven keys of the source's payload, with
      `wav`, speed 1, streaming on and `params` nested. */
  lemma PayloadShape(s: Settings, text: Json)
    ensures var p := TtsPayload(s, text);
      && p.JObj? && p.fields.Keys == {"model", "voice", "input", "response_format", "speed", "stream", "params"}
      && p.fields["response_format"] == JStr("wav") && p.fields["speed"] == JInt(1)
      && p.fields["stream"] == JBool(true)
      && p.fields["params"] == TtsParams(s) && TtsParams(s).JObj?
  {
  }

  /** The chunking values of `params` that no setting changes. */
  lemma FixedChunking(s: Settings)
    ensures var q := TtsParams(s).fields;
      && q["desired_length"] == JInt(100) && q["max_length"] == JInt(300)
      && q["halve_first_chunk"] == JBool(true)
      && q["chunk_overlap_method"] == JStr("undefined")
  {
  }

  /** The remaining values of `params` that no setting changes. */
  lemma FixedRuntime(s: Settings)
    ensures var q := TtsParams(s).fields;
      && q["cpu_offload"] == JBool(false) && q["cache_voice"] == JBool(false)
      && q["tokens_per_slice"] == JNull && q["remove_milliseconds"] == JNull
      && q["remove_milliseconds_start"] == JNull
      && q["use_compilation"] == JBool(true)
      && q["max_new_tokens"] == JInt(1000) && q["max_cache_len"] == JInt(1500)
  {
  }
}
