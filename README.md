# T-Deck LLM chat client — a Dafny model of its session core

This project models the keystroke-driven chat session of a handheld T-Deck
terminal. The Python source lives in `main.py` and `config.py`. Each key
press edits a pending line or submits it. A submitted line is one of these:

- a slash command: `/models` or `/load <name>`;
- a chat turn, sent to an LM Studio-compatible server.

Messages go into a word-wrapped, scrolling transcript of labels. An
assistant reply can be spoken through a text-to-speech server: it goes
through a temporary WAV file that is written, played and removed. The
settings object in `config.py` loads its fifteen attributes from
`config.json` and writes them all back.

The model works on values. HTTP replies, file writability and the
text-to-speech answer are inputs (`Session.Io`, `Config.ConfigFile`).
Writing the temporary audio file has three outcomes
(`Effects.AudioWrite`): the write completes, the open fails, or the open
creates the file and the write raises, which leaves it on the card.
Everything the session sends or writes is appended, in order, to the
session's `trace` (`Effects.Effect`). Objects that the source updates in
place are classes:

- the settings object: `Config.Config`;
- the main loop's state: `Session.Session`.

Pure computations are functions with lemmas about them:

- word wrap;
- command routing;
- request building;
- text-to-speech parameter resolution.

Modules, one file each:

- `Text` (text.dfy): Python's `split()`, `strip()`, `startswith` and
  `str(int)`. Whitespace is CircuitPython's six characters: blank, tab, line
  feed, vertical tab, form feed and carriage return.
- `JsonValues` (json.dfy): decoded JSON values, Python truthiness, `x or y`
  and `str(x)`.
- `Config` (config.py): the `Config` class, `load_config` over the decoded
  file and `save_config` as the object it would write.
- `Layout` (main.py:277-300): `create_multi_line_label`.
- `Editor` (main.py:314-393, 488-496): the pending line and command routing.
- `Requests`: the requests for `/models`, `/load`, chat, the start-up
  health check and the auto-load, plus reading a chat reply.
- `Effects`: what the session does to the world.
- `Speech` (main.py:161-238, 449-473): `tts_generate_audio` and the
  temp-file sequence.
- `Session` (main.py:67-150, 302-497): start-up and one main-loop pass per
  key.

Points where the model follows the code closely:

- The start-up auto-load sets `last_used_model` in memory before its
  request. It writes the file only when the reply is a 200.
- `tts_chunked` is sent as the attribute's value, which is `None` when
  unset, not `True`.
- The scroll at main.py:406-412 and 475-481 names its quantities
  `visible_height` and `scroll_amount`: the newest line is meant to end at
  the visible height. As written, though, it subtracts the whole overflow
  from the already-scrolled offset on every message. `Session.Session`
  keeps both offsets. The ghost field `writtenY` is
  `chat_history_group.y` exactly as the code computes it. `groupY` is the
  offset under the corrected scroll, which the rest of the model uses.
  This is the finding below.

## Model

| member | source | states |
|---|---|---|
| `Config.Config.constructor` | config.py:7-22 | A new object holds `None` everywhere except `logging_enabled = False` and `sd_card_path = "/sd"` |
| `Config.FreshDefaults` | config.py:7-22 | The same defaults, attribute by attribute |
| `Config.Config.SetAttr` | config.py:44-45 | `setattr` on the object changes that one attribute and no other |
| `Config.Settings.Set` | config.py:44-45 | `setattr` changes the one attribute named and no other |
| `Config.WithDefaults` | config.py:26-45 | After the `defaults` loop, the three default-backed attributes hold the file's value or their default; the rest are untouched |
| `Config.DefaultsPrefixComplete` | config.py:44-45 | Running the loop over the whole `defaults` table gives `WithDefaults` |
| `Config.Config.ApplyDefaults` | config.py:44-45 | The `setattr` loop, proved against `WithDefaults` with a loop invariant |
| `Config.WithPresent` | config.py:47-73 | Each of the other twelve attributes takes the file's value when its key is present; an absent key leaves it as it was |
| `Config.Config.AssignIfPresent` | config.py:48-49 | One presence-checked assignment |
| `Config.Config.ApplyPresent` | config.py:47-73 | The twelve presence-checked assignments, in the source's order, give `WithPresent` |
| `Config.Config.ApplyServerKeys` | config.py:48-59 | The base URL, the key and the TTS URL, model and voice each take the file's value when the key is present and keep their old value otherwise; no other attribute changes |
| `Config.Config.ApplyTuningKeys` | config.py:60-72 | Exaggeration, cfg_weight, temperature, device, dtype, seed and chunked each take the file's value when present and keep their old value otherwise; no other attribute changes |
| `Config.Loaded` | config.py:44-73 | Every attribute after the assignments, as `LoadValue` describes it |
| `Config.Config.LoadConfig` | config.py:24-85 | The attributes and the raised error are `LoadOutcome`. Missing file: `NotFound`. Bad JSON or a non-object: `Invalid`, with nothing changed. A null base URL or key: `Invalid(MissingRequired)`, after the assignments. A key that cannot be sliced by `api_key[:5]`: `Invalid(ApiKeyNotSliceable)` |
| `Config.LoadResetsDefaultBacked` | config.py:26-45 | `last_used_model`, `logging_enabled` and `sd_card_path` take the file's value or their default, whatever they held before |
| `Config.LoadKeepsAbsent` | config.py:47-73 | The presence-checked attributes change only when their key is in the file |
| `Config.LoadIdempotent` | config.py:44-73 | Applying the same file twice equals applying it once |
| `Config.FreshLoadSucceedsIff` | config.py:32-85 | On a fresh object, a load succeeds exactly when the file is an object with a non-null base URL and a string or list key |
| `Config.LoadFailureFootprint` | config.py:33-85 | Failures before the assignments leave every attribute as it was. Otherwise the attributes are `Loaded`, whether or not validation then fails |
| `Config.PartialUpdateOnFailure` | config.py:44-79 | A file naming only `sd_card_path` fails validation, yet the path has already been taken over |
| `Config.ToJson` | config.py:89-105 | The saved object holds every attribute under its own key, `None` values included |
| `Config.ToJsonKeys` | config.py:89-105 | The saved object has exactly the fifteen keys |
| `Config.Config.SaveConfig` | config.py:87-111 | A writable file receives exactly the fifteen keys with the current values. A write failure is reported, not raised. No attribute changes |
| `Config.SaveLoadRoundTrip` | config.py:44-105 | Loading what was saved reproduces every attribute, whatever the object held before. It succeeds exactly when the base URL is set and the key is a string or list |
| `Text.SplitWords` | main.py:279 | `split()` yields non-empty, blank-free words that together hold every non-blank character in order |
| `Text.Strip` | main.py:288 | `strip()` gives a contiguous piece of the text with only blanks cut from its two ends. It keeps every non-blank character, is empty only for blank text, and starts and ends with a non-blank |
| `Layout.CreateMultiLineLabel` | main.py:277-300 | The labels carry the lines of `Wrap(text, max_chars)`. Line i sits at `start_y + 15·i`, at x and in the given colour. The height is 15 × the number of lines |
| `Layout.WrapStep` | main.py:282-289 | One turn of the loop over `words`: the finished lines only grow, by one line exactly when a non-empty `current_line` cannot take the word, and `current_line` is non-empty afterwards for a non-empty word |
| `Layout.WrapFrom` | main.py:282-291 | The loop over the remaining words followed by the final flush only appends to the lines already finished |
| `Layout.WrapStepKeeps` | main.py:282-289 | One turn of the loop keeps `current_line` in its shape. Flushed lines stay non-empty and within the budget, unless they are a single word |
| `Layout.WrapFromBounds` | main.py:282-291 | Every line the loop and the final flush produce is non-empty and within the budget, unless it is a single word of the text |
| `Layout.WrapLinesFit` | main.py:279-291 | No wrapped line is empty. A line longer than `max_chars` is one of the text's words, placed alone |
| `Layout.WrapStepContent` | main.py:283-289 | One turn of the loop moves the word's characters into the lines and `current_line`, losing none |
| `Layout.WrapFromContent` | main.py:282-291 | The loop keeps every non-blank character in order |
| `Layout.WrapKeepsText` | main.py:279-291 | The wrapped lines hold exactly the non-blank characters of the text, in order |
| `Layout.WrapFromCount` | main.py:282-291 | The loop adds at most one line per word and at least one line when there is a word |
| `Layout.WrapLineCount` | main.py:279-300 | There are no more lines than words. Blank text gives no lines, so height 0; any word gives at least one line |
| `Layout.FirstWordGlued` | main.py:283 | The first word goes in without a blank, so the second is glued to it: "User: hello there" wraps to "User:hello there" |
| `Editor.Backspace` | main.py:491-492 | `input_text[:-1]` drops the last character; an empty line stays empty |
| `Editor.BackspaceUndoesKey` | main.py:491-496 | Typing a character and then Backspace restores the line |
| `Editor.BackspacesKeepPrefix` | main.py:491-492 | n presses of Backspace leave the first `len - n` characters, or nothing |
| `Editor.Classify` | main.py:321-393 | A line is a chat turn exactly when it does not start with `/`, and is then sent unchanged. After `/`, with the tokens of `split()`: `models` first lists the models; `load` first with a second token loads that token; `load` alone is the usage hint; no token or any other first token is unknown |
| `Editor.OtherTokenUnknown` | main.py:391-392 | `/` then any first word other than `models` and `load` is an unknown command, whatever follows |
| `Editor.EmptyLineIsChat` | main.py:317-321 | The empty line is a chat turn |
| `Editor.BareSlashUnknown` | main.py:391-392 | `/` followed only by blanks has no token and is an unknown command |
| `Editor.LoadTokens` | main.py:324-356 | After `/`, a line `load <name> …` splits into `load` followed by the name |
| `Editor.LoadTakesSecondToken` | main.py:352-356 | `/load <name> …` loads the second token, whatever follows it |
| `Editor.LoadWithoutName` | main.py:352-389 | `/load` alone asks for a name and sends nothing |
| `Editor.ModelsIgnoresRest` | main.py:326 | `/models …` lists the models, whatever follows |
| `Requests.AuthHeader` | main.py:330-332 | `Authorization: Bearer <key>` is present exactly when the key has a non-blank character |
| `Requests.JsonHeaders` | main.py:360-362 | The headers of `/load` and of a chat turn: `Content-Type: application/json` and the conditional `Authorization`, nothing else |
| `Requests.HealthCheckRequest` | main.py:92-102 | The start-up check is a GET of `<base>/models` with no headers at all; the conditional header built at main.py:95-97 is not passed |
| `Requests.ListModelsRequest` | main.py:328-334 | `/models` is a GET of `<base>/models` whose only possible header is `Authorization`, present exactly for a non-blank key |
| `Requests.LoadRequest` | main.py:358-365 | `/load` is a POST to `<base>/models` whose body has the one key `model`, set to the name, with the JSON headers |
| `Requests.AutoLoadRequest` | main.py:127-131 | The auto-load is a POST to `<base>/models` of `{"model": "phi-4-mini-instruct"}` with exactly `Authorization: Bearer <key>` and the JSON content type |
| `Requests.ChatRequest` | main.py:415-432 | A chat turn is a POST to `<base>/chat/completions` whose body has exactly `model` (`ChatModel`) and `messages` (`Messages`), with the JSON headers |
| `Requests.AuthorizationIff` | main.py:328-424 | `/models`, `/load` and chat send `Authorization` exactly when the key is not blank. The auto-load always sends it |
| `Requests.AutoLoadDiffersOnBlankKey` | main.py:127-131 | With a blank key, the auto-load sends `Authorization` and `/load` of the same model does not; the bodies are equal |
| `Requests.ChatModel` | main.py:415 | The chat model is `last_used_model` when truthy, otherwise `phi-4-mini-instruct`. It is always truthy |
| `Requests.Messages` | main.py:427-429 | The user turn comes last. A system entry is put in front exactly when the system prompt is non-empty |
| `Requests.ExtractContent` | main.py:435-438 | Content is found only in an object whose `choices` is a non-empty list whose first entry is an object with a `message` object holding `content`; the result is that `content` value |
| `Requests.ExtractsCompletion` | main.py:435-438 | Any body with such a first choice yields its content, whatever other keys the body, the choice and the message carry and whatever choices follow |
| `Requests.ErrorBodyYieldsNothing` | main.py:434-438 | A body that is not an object, or an object without `choices`, yields no content |
| `Requests.AssistantContent` | main.py:432-438 | Content exists exactly for a status-200 reply with a decoded body from which `choices[0].message.content` can be read, and it is that value |
| `Speech.GenerateAudio` | main.py:161-238 | A request is sent exactly when `tts_base_url` is truthy and the model server is not https. It is the resolved TTS request. Bytes come back exactly for a 200 to it |
| `Speech.TtsHeaders` | main.py:170-175 | `Content-Type: application/json`, `Accept: */*` and the conditional `Authorization`, nothing else |
| `Speech.TtsRequest` | main.py:169-223 | A POST to `tts_base_url + "/v1/audio/speech"` carrying `TtsPayload` with the TTS headers |
| `Speech.PayloadShape` | main.py:211-219 | `TtsPayload` has exactly the seven keys, with `response_format` `wav`, `speed` 1, `stream` true and `TtsParams` under `params` |
| `Speech.FixedChunking` | main.py:189-209 | `TtsParams` sends `desired_length` 100, `max_length` 300, `halve_first_chunk` true and `chunk_overlap_method` `undefined` whatever the settings |
| `Speech.FixedRuntime` | main.py:189-209 | `TtsParams` sends `cpu_offload` and `cache_voice` false, the three `remove`/`tokens` values null, `use_compilation` true, `max_new_tokens` 1000 and `max_cache_len` 1500 whatever the settings |
| `Speech.SpeechEffectsOf` | main.py:455-470 | For content with a length, the TTS block's effects are the request sent, if any, followed by the file operations on the bytes returned |
| `Speech.SpeechUrl` | main.py:169 | The request goes to `tts_base_url + "/v1/audio/speech"` |
| `Speech.FreshPayload` | main.py:179-180 | For unset settings, model and voice fall back to `chatterbox` and the default voice path; the text is sent as `input` |
| `Speech.FreshParams` | main.py:184-205 | For unset settings, device, dtype and seed fall back to `auto`, `float16` and -1. `chunked` is sent as `None`, not `True` |
| `Speech.PayloadFallbacks` | main.py:179-180 | For any settings, `model` and `voice` are sent as configured when truthy and as `chatterbox` and the default voice path when falsy; the text is `input` |
| `Speech.ParamsFallbacks` | main.py:184-205 | For any settings, `exaggeration`, `cfg_weight`, `temperature`, `device`, `dtype` and `seed` are sent as configured when truthy and as 0.4, 0.5, 0.6, `auto`, `float16` and -1 when falsy; `chunked` is sent as it is |
| `Speech.AudioFileOps` | main.py:459-471 | File operations happen exactly for non-empty bytes whose file opens. A completed write is followed by a play and a removal, in that order. A write that raises after the open leaves only the write: no play, no removal |
| `Speech.RemoveFollowsPlay` | main.py:464-470 | Every playback is followed at once by removing the same file |
| `Speech.LeftOnCard` | main.py:459-471 | The temp file is created but never removed exactly when its write raises after the open. Playback happens exactly when removal does |
| `Speech.NoSpeechWithout` | main.py:455-458 | Nothing is sent and no file is touched exactly when the content has no `len()`, `tts_base_url` is not truthy, or the model server is https |
| `Speech.FileOnlyFrom200` | main.py:455-471 | Any file operation follows a 200 with non-empty bytes and a successful open, at `sd_card_path + "/temp_audio.wav"`. It is the write, then a play and a removal only when the write completed |
| `Session.ScrollAsWritten` | main.py:406-412 | As written, a bottom beyond 170 moves the group up by exactly the overflow; the offset never increases |
| `Session.AsWrittenSubtractsAll` | main.py:406-412 | As written, the group ends up moved by the sum of every overflow seen |
| `Session.AsWrittenLosesNewest` | main.py:475-481 | After fourteen one-line messages, the newest line lies above the screen as written. The corrected scroll keeps it at the visible height |
| `Session.ScrollKeepsNewestVisible` | main.py:406-412 | The corrected scroll puts the group where the newest bottom requires and never moves it down. The newest line ends at the visible height |
| `Session.WrittenNeverBelow` | main.py:406-412 | As written, the group's offset is never below where the corrected scroll puts it: the newest overflow is one of those subtracted |
| `Session.Rescrolled` | main.py:406-412 | One more message moves the corrected offset to where its bottom requires and the as-written offset up by one more overflow |
| `Session.StackedAt` | main.py:397-403 | Stacked labels sit at x 10 and one line height apart from the top of the group |
| `Session.RoutedAppendsOnly` | main.py:314-490 | Routing a line only appends to the trace, and only a chat turn appends to the transcript and its labels |
| `Session.RoutedSettingsOnlyOnLoad` | main.py:352-387 | Routing changes the settings only for a `/load` answered 200, and then only `last_used_model`, which names the loaded model |
| `Session.ChatRouted` | main.py:395-487 | A chat turn's entries, labels and effects are what routing a chat line does |
| `Session.ScrollAllCorrected` | main.py:406-412 | Over any growing sequence of bottoms, the corrected scroll depends only on the last one |
| `Session.ChatEntries` | main.py:397-446 | A chat turn adds the user's entry `User: <text>` with its height first, and a second entry `YoYo:: <content>` with its height exactly when the reply has content |
| `Session.OneEntryUnlessAnswered` | main.py:434-485 | A failed call, a non-200 status, an undecodable body or a body without `choices[0].message.content` adds only the user's entry |
| `Session.Session.constructor` | main.py:67-150 | Start-up sends the health check with no headers. With a model already set, it shows that model. Without one, it sets `phi-4-mini-instruct` in memory, sends the auto-load, and saves and relabels only on a 200 |
| `Session.Session.AutoLoad` | main.py:119-150 | With a model already set, nothing is sent or saved and the label shows that model. Without one, `last_used_model` becomes `phi-4-mini-instruct`, the auto-load request is sent, and the file is saved and the label set only on a 200 |
| `Session.Session.AppendBlock` | main.py:397-403 | A message is laid out at 50 + the sum of earlier heights and recorded with its height. The labels stay stacked |
| `Session.Session.ScrollTo` | main.py:406-412 | The offset after the corrected scroll, and the as-written offset `writtenY` moved up by the overflow exactly as main.py:411 does; nothing else changes |
| `Session.Session.Speak` | main.py:449-473 | The trace grows by exactly `SpeechEffects` for the reply's content |
| `Session.Session.WriteAndPlay` | main.py:459-471 | The trace grows by exactly `AudioFileOps`: write, play and remove for a completed write; the write alone when it raises after the open; nothing for empty bytes or a failed open. Nothing else changes |
| `Session.Session.SendUserLine` | main.py:397-432 | The user's entry and its labels are added below the transcript and scrolled into view, then the chat request is sent; both offsets never increase |
| `Session.Session.ShowReply` | main.py:434-481 | The assistant's entry and its green labels are added below the transcript, its speech is recorded, then it is scrolled into view |
| `Session.Session.ShowAnswer` | main.py:432-485 | The assistant's entry, labels and speech are added exactly when the reply has content; otherwise nothing changes |
| `Session.Session.ChatTurn` | main.py:395-487 | `Routed(Chat(text), …)` holds between the states before and after: the transcript grows by `ChatEntries`, the group by the user's then the assistant's labels stacked below the old content, and the trace by the chat request plus any speech. The offsets never increase |
| `Session.Session.LoadModel` | main.py:352-387 | Only on a 200 do `last_used_model`, the saved file and the label change, and all then name the requested model. Otherwise only the request is recorded. This is what `Routed` says for `/load` |
| `Session.Session.Submit` | main.py:314-490 | Enter changes the settings, model label, transcript, labels and trace exactly as `Routed` says for `Classify` of the line, then clears the line. Neither the corrected nor the as-written offset increases |
| `Session.Session.SetInput` | main.py:488-496 | The pending line and its label change and nothing else |
| `Session.Session.HandleKey` | main.py:309-497 | No key changes nothing. Enter routes the line as `Submit` does and clears it. Backspace and typing only edit the line, leaving settings, labels, transcript and trace as they were. The label stays `"> "` + line, and neither the corrected nor the as-written offset increases |

## Left out

- Wi-Fi, DNS and socket-pool bring-up, the display, fonts, the welcome label and the T-Deck hardware. A label is text at a position in a colour.
- The HTTP transport. A request is a value; a reply is an input. TLS selection is kept only as the `https` flag, which decides whether a TTS session exists.
- The health check's reply and the model list printed by `/models`. They are only logged.
- Reading `prompt.txt`. The system prompt is given to the session.
- Reading and writing `config.json`. The file is `Config.ConfigFile` on load and `Config.SaveOutcome` on save. Every write failure is one `WriteFailed`.
- Audio decoding, the speaker and the busy-wait on `speaker.playing`. A playback is one `PlayAudio` effect whether or not a speaker exists, since `play_audio` swallows its own errors.
- Floating-point TTS settings. A JSON float is kept as its text and whether it is zero.
- `JsonValues.PyStr`: renders lists and dicts as fixed placeholders, not Python's `repr`.
- All `print` and `traceback` logging, the infinite loop and `time.sleep`. One `HandleKey` call is one pass of the loop.
- `Session.Session.constructor`: requires `lm_studio_base_url` and `api_key` to be JSON strings. A loaded base URL that is not a string stops the source at main.py:81, and a non-empty list key stops it at main.py:96; those crashes are not modelled. An empty list key (`"api_key": []`) is one the source accepts: `[][:5]` works at main.py:69, main.py:96 short-circuits on the empty list, and the auto-load sends `Bearer []`. The model excludes that input. A `load_config` failure at start-up also ends the program, so the session starts only after a successful load.
- `Layout.WrapKeepsText`: proves that the non-blank characters are kept in order. It does not prove that each word lands whole on one line.
- `Session.Session.ScrollTo`: `groupY`, the offset the model's invariant speaks of, follows the corrected scroll of the finding below. The cumulative scroll at main.py:411 and 480 is kept alongside it in the ghost field `writtenY`.
- A key press is a string. A multi-character key is typed as it is.

## Findings

| source | as written | input that shows it | evidently intended | confidence | as-written member | corrected member |
|---|---|---|---|---|---|---|
| main.py:406-412 | `chat_history_group.y -= scroll_amount`, with `scroll_amount = total_y - visible_height`, measures the overflow from the group's resting place but subtracts it from the already-scrolled offset, so every earlier overflow is subtracted again | fourteen one-line messages: the bottoms are 65, 80, …, 260, the offset ends at 50 − 315 = −265, and the newest line ends at −5, above the screen | set the offset to 50 − (total_y − 170), so the newest line always ends at the visible height (220 on screen) | not executed; the arithmetic is proved | `Session.AsWrittenLosesNewest` | `Session.ScrollKeepsNewestVisible` |
