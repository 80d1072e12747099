/** The keystroke-driven session of main.py: the pending line, the chat
    transcript and its labels, the scroll offset of the transcript group,
    the model label and the settings object. Replies from the servers and
    whether files can be written are inputs, one `Io` per key; what the
    session sends and writes is appended to `trace`. */
module Session {
  import opened Text
  import opened JsonValues
  import opened Config
  import opened Layout
  import opened Editor
  import opened Requests
  import opened Effects
  import opened Speech

  /** Where the transcript group sits before any scrolling, and the height
      below which its content is visible. */
  const GroupTop: int := 50
  const VisibleHeight: int := 170
  const LabelX: int := 10
  const UserColor: int := 0xFFFFFF
  const AssistantColor: int := 0x00FF00

  /** The answers the world gives to one key press. */
  datatype Io = Io(
    reply: Reply,               // the model server's answer to this key's request
    configWritable: bool,       // whether save_config can write config.json
    speech: AudioReply,         // the TTS server's answer
    audioWrite: AudioWrite)     // how writing the temp audio file goes

  /** The sum of the heights recorded in `chat_history`. */
  function HeightSum(history: seq<(string, int)>): int {
    if history == [] then 0 else HeightSum(history[..|history| - 1]) + history[|history| - 1].1
  }

  /** The height a message takes in the transcript. */
  function BlockHeight(msg: string): int {
    LineHeight * |Wrap(msg, LineBudget)|
  }

  /** The labels create_multi_line_label places for `msg` at `baseY`. */
  function Block(msg: string, baseY: int, color: int): (b: seq<Label>)
    ensures |b| == |Wrap(msg, LineBudget)|
  {
    var lines := Wrap(msg, LineBudget);
    seq(|lines|, i requires 0 <= i < |lines| => Label(lines[i], LabelX, baseY + LineHeight * i, color))
  }

  /** The labels of the transcript group, one line height apart from the
      top of the group. */
  predicate Stacked(labels: seq<Label>) {
    forall i :: 0 <= i < |labels| ==>
      LabelAt(labels, i).x == LabelX && LabelAt(labels, i).y == GroupTop + LineHeight * i
  }

  /** Label `i` of the group; naming it keeps `Stacked` from being applied
      to every index the proofs mention. */
  function LabelAt(labels: seq<Label>, i: nat): Label
    requires i < |labels|
  {
    labels[i]
  }

  /** Label `i` of a stacked group sits at x 10 and at `50 + 15·i`. */
  lemma StackedAt(labels: seq<Label>)
    ensures Stacked(labels) <==>
              forall i :: 0 <= i < |labels| ==> labels[i].x == LabelX && labels[i].y == GroupTop + LineHeight * i
  {
    if Stacked(labels) {
      forall i | 0 <= i < |labels| ensures labels[i].x == LabelX && labels[i].y == GroupTop + LineHeight * i {
        assert LabelAt(labels, i) == labels[i];
      }
    }
  }

  /** Where the group sits once its content reaching down to `bottom` has
      been scrolled into view: the newest line ends at the visible height. */
  function ScrolledY(bottom: int): int {
    if bottom > VisibleHeight then GroupTop - (bottom - VisibleHeight) else GroupTop
  }

  /** The scroll at main.py as written: the whole overflow of the group's
      content is subtracted again on every message. */
  function ScrollAsWritten(y: int, bottom: int): (r: int)
    ensures r <= y
    ensures bottom > VisibleHeight ==> y - r == bottom - VisibleHeight
    ensures bottom <= VisibleHeight ==> r == y
  {
    if bottom > VisibleHeight then y - (bottom - VisibleHeight) else y
  }

  /** The scroll as evidently intended: the overflow is measured from the
      group's resting place, so the newest line ends at the visible height. */
  function Scroll(y: int, bottom: int): int {
    if bottom > VisibleHeight then GroupTop - (bottom - VisibleHeight) else y
  }

  /** The group's offset after scrolling for each message bottom in turn,
      as written and as corrected. */
  function ScrollAllAsWritten(y: int, bottoms: seq<int>): int
    decreases |bottoms|
  {
    if bottoms == [] then y else ScrollAllAsWritten(ScrollAsWritten(y, bottoms[0]), bottoms[1..])
  }

  function ScrollAll(y: int, bottoms: seq<int>): int
    decreases |bottoms|
  {
    if bottoms == [] then y else ScrollAll(Scroll(y, bottoms[0]), bottoms[1..])
  }

  /** The overflow of each bottom past the visible height, added up. */
  function TotalOverflow(bottoms: seq<int>): int
    decreases |bottoms|
  {
    if bottoms == [] then 0
    else (if bottoms[0] > VisibleHeight then bottoms[0] - VisibleHeight else 0) + TotalOverflow(bottoms[1..])
  }

  /** As written, every overflow ever seen is subtracted. */
  lemma {:induction false} AsWrittenSubtractsAll(y: int, bottoms: seq<int>)
    ensures ScrollAllAsWritten(y, bottoms) == y - TotalOverflow(bottoms)
    decreases |bottoms|
  {
    if bottoms != [] {
      AsWrittenSubtractsAll(ScrollAsWritten(y, bottoms[0]), bottoms[1..]);
    }
  }

  /** With the corrected scroll the group sits where `ScrolledY` says for the
      newest bottom, never moves down, and the newest line, once there is an
      overflow, ends exactly at the visible height. */
  lemma ScrollKeepsNewestVisible(y: int, previous: int, bottom: int)
    requires y == ScrolledY(previous) && previous <= bottom
    ensures Scroll(y, bottom) == ScrolledY(bottom)
    ensures Scroll(y, bottom) <= y
    ensures bottom > VisibleHeight ==> Scroll(y, bottom) + bottom == GroupTop + VisibleHeight
  {
  }

  lemma {:induction false} ScrollAllCorrected(y: int, previous: int, bottoms: seq<int>)
    requires y == ScrolledY(previous)
    requires forall i :: 0 <= i < |bottoms| ==> previous <= bottoms[i]
    requires forall i, j :: 0 <= i < j < |bottoms| ==> bottoms[i] <= bottoms[j]
    ensures ScrollAll(y, bottoms) == if bottoms == [] then y else ScrolledY(bottoms[|bottoms| - 1])
    decreases |bottoms|
  {
    if bottoms != [] {
      ScrollKeepsNewestVisible(y, previous, bottoms[0]);
      ScrollAllCorrected(Scroll(y, bottoms[0]), bottoms[0], bottoms[1..]);
    }
  }

  /** The bottoms of `n` one-line messages: 65, 80, 95, ... */
  function OneLineBottoms(n: nat): (b: seq<int>)
    ensures |b| == n
    ensures forall i :: 0 <= i < n ==> b[i] == GroupTop + LineHeight * (i + 1)
  {
    if n == 0 then [] else OneLineBottoms(n - 1) + [GroupTop + LineHeight * n]
  }

  lemma {:induction false} TotalOverflowSnoc(bottoms: seq<int>, b: int)
    ensures TotalOverflow(bottoms + [b]) == TotalOverflow(bottoms) + (if b > VisibleHeight then b - VisibleHeight else 0)
    decreases |bottoms|
  {
    if bottoms == [] {
      assert bottoms + [b] == [b];
    } else {
      assert (bottoms + [b])[1..] == bottoms[1..] + [b];
      TotalOverflowSnoc(bottoms[1..], b);
    }
  }

  /** The overflow of the first `n` one-line messages: nothing up to the
      eighth, then 15, 30, 45, ... for each further one. */
  lemma {:induction false} OneLineOverflow(n: nat)
    ensures TotalOverflow(OneLineBottoms(n)) == if n <= 8 then 0 else 15 * (n - 8) * (n - 7) / 2
  {
    if n > 0 {
      OneLineOverflow(n - 1);
      TotalOverflowSnoc(OneLineBottoms(n - 1), GroupTop + LineHeight * n);
    }
  }

  /** Fourteen one-line messages: the as-written scroll has moved the group
      so far that the newest line lies above the top of the screen, where
      the corrected scroll keeps it at the visible height. */
  lemma AsWrittenLosesNewest()
    ensures var bottoms := OneLineBottoms(14);
      && ScrollAllAsWritten(GroupTop, bottoms) + bottoms[13] < 0
      && ScrollAll(GroupTop, bottoms) + bottoms[13] == GroupTop + VisibleHeight
  {
    var bottoms := OneLineBottoms(14);
    AsWrittenSubtractsAll(GroupTop, bottoms);
    OneLineOverflow(14);
    ScrollAllCorrected(GroupTop, GroupTop, bottoms);
  }

  function UserMessage(text: string): string {
    "User: " + text
  }

  /** The transcript entries a chat turn adds: the user's line, then the
      assistant's when the reply was a 200 with a completion in it. */
  function ChatEntries(text: string, reply: Reply): (e: seq<(string, int)>)
    ensures |e| == if AssistantContent(reply).Some? then 2 else 1
    ensures e[0] == (UserMessage(text), BlockHeight(UserMessage(text)))
    ensures AssistantContent(reply).Some? ==>
              var m := AssistantMessage(AssistantContent(reply).value);
              e[1] == (m, BlockHeight(m))
  {
    [(UserMessage(text), BlockHeight(UserMessage(text)))] + ReplyEntries(reply)
  }

  /** The assistant's entry for a reply, when it carries content. */
  function ReplyEntries(reply: Reply): seq<(string, int)> {
    match AssistantContent(reply)
    case Some(c) => [(AssistantMessage(c), BlockHeight(AssistantMessage(c)))]
    case None => []
  }

  /** A failed call, a non-200 status, an undecodable body or a body without
      `choices[0].message.content` adds exactly the user's entry. */
  lemma OneEntryUnlessAnswered(text: string, reply: Reply)
    requires || !reply.Response? || reply.status != 200 || reply.body.None?
             || ExtractContent(reply.body.value).None?
    ensures ChatEntries(text, reply) == [(UserMessage(text), BlockHeight(UserMessage(text)))]
  {
  }

  /** The labels a chat turn appends below content reaching down to `top`:
      the user's block in white, then the assistant's in green right under
      it when there is one. */
  function ChatBlocks(text: string, reply: Reply, top: int): seq<Label> {
    var user := UserMessage(text);
    Block(user, top, UserColor) + ReplyBlocks(reply, top + BlockHeight(user))
  }

  /** The assistant's labels for a reply, placed at `top`, when it carries
      content. */
  function ReplyBlocks(reply: Reply, top: int): seq<Label> {
    match AssistantContent(reply)
    case Some(c) => Block(AssistantMessage(c), top, AssistantColor)
    case None => []
  }

  /** What a chat turn sends and writes: the chat request, then the speech
      for the reply's content when there is one. */
  function ChatEffects(s: Settings, prompt: string, https: bool, text: string, io: Io): seq<Effect>
    requires s.lmStudioBaseUrl.JStr? && s.apiKey.JStr?
  {
    [Http(UserRequest(s, prompt, text))] + ReplyEffects(s, https, io)
  }

  /** The chat request for `text` under the settings `s`. */
  function UserRequest(s: Settings, prompt: string, text: string): Request
    requires s.lmStudioBaseUrl.JStr? && s.apiKey.JStr?
  {
    ChatRequest(s.lmStudioBaseUrl.s, s.apiKey.s, s.lastUsedModel, prompt, text)
  }

  /** The speech for a reply, when it carries content. */
  function ReplyEffects(s: Settings, https: bool, io: Io): seq<Effect>
    requires s.apiKey.JStr?
  {
    match AssistantContent(io.reply)
    case Some(c) => SpeechEffects(s, c, https, io.speech, io.audioWrite)
    case None => []
  }

  /** The `total_y` each scroll of the transcript was computed for: the
      bottom of the content after each entry of `history`. */
  function Bottoms(history: seq<(string, int)>): (b: seq<int>)
    ensures |b| == |history|
  {
    if history == [] then [] else Bottoms(history[..|history| - 1]) + [GroupTop + HeightSum(history)]
  }

  lemma {:induction false} TotalOverflowNonNegative(bottoms: seq<int>)
    ensures TotalOverflow(bottoms) >= 0
    decreases |bottoms|
  {
    if bottoms != [] {
      TotalOverflowNonNegative(bottoms[1..]);
    }
  }

  /** As written, the group is never below where the corrected scroll puts
      it: the overflow of the newest bottom is one of those subtracted. */
  lemma WrittenNeverBelow(history: seq<(string, int)>)
    ensures GroupTop - TotalOverflow(Bottoms(history)) <= ScrolledY(GroupTop + HeightSum(history))
  {
    if history != [] {
      var prefix := history[..|history| - 1];
      TotalOverflowSnoc(Bottoms(prefix), GroupTop + HeightSum(history));
      TotalOverflowNonNegative(Bottoms(prefix));
    }
  }

  /** The state a submitted line can change, as values. */
  datatype View = View(
    settings: Settings,
    modelLabel: string,
    history: seq<(string, int)>,
    labels: seq<Label>,
    trace: seq<Effect>)

  /** What routing `command` does to the state `v`, giving `v'`. A chat turn
      adds its entries, labels and effects. `/models` only sends its
      request. `/load` sends its request and, on a 200 only, sets and saves
      the model and relabels. A usage hint and an unknown command change
      nothing. */
  predicate Routed(command: Command, io: Io, prompt: string, https: bool, v: View, v': View)
    requires v.settings.lmStudioBaseUrl.JStr? && v.settings.apiKey.JStr?
  {
    var base := v.settings.lmStudioBaseUrl.s;
    var key := v.settings.apiKey.s;
    var ok := io.reply.Response? && io.reply.status == 200;
    match command
    case Chat(text) =>
      v' == v.(history := v.history + ChatEntries(text, io.reply),
               labels := v.labels + ChatBlocks(text, io.reply, GroupTop + HeightSum(v.history)),
               trace := v.trace + ChatEffects(v.settings, prompt, https, text, io))
    case ListModels =>
      v' == v.(trace := v.trace + [Http(ListModelsRequest(base, key))])
    case Load(name) =>
      var s' := if ok then v.settings.Set(LastUsedModel, JStr(name)) else v.settings;
      v' == v.(settings := s',
               modelLabel := if ok then "Model: " + name else v.modelLabel,
               trace := v.trace + [Http(LoadRequest(base, key, name))]
                        + (if ok then [Saved(SaveResult(s', io.configWritable))] else []))
    case LoadUsage => v' == v
    case Unknown => v' == v
  }

  /** Only a chat turn touches the transcript, and it only appends to it;
      the trace only grows. */
  lemma RoutedAppendsOnly(command: Command, io: Io, prompt: string, https: bool, v: View, v': View)
    requires v.settings.lmStudioBaseUrl.JStr? && v.settings.apiKey.JStr?
    requires Routed(command, io, prompt, https, v, v')
    ensures v.trace <= v'.trace && v.history <= v'.history && v.labels <= v'.labels
    ensures !command.Chat? ==> v'.history == v.history && v'.labels == v.labels
    ensures command.Chat? ==> |v'.history| == |v.history| + |ChatEntries(command.text, io.reply)|
  {
  }

  /** The settings change only for a `/load` answered with 200, and then
      only in `last_used_model`, which names the loaded model. */
  lemma RoutedSettingsOnlyOnLoad(command: Command, io: Io, prompt: string, https: bool, v: View, v': View)
    requires v.settings.lmStudioBaseUrl.JStr? && v.settings.apiKey.JStr?
    requires Routed(command, io, prompt, https, v, v')
    ensures v'.settings != v.settings ==>
              && command.Load? && io.reply.Response? && io.reply.status == 200
              && v'.settings.lastUsedModel == JStr(command.name)
    ensures forall f :: f != LastUsedModel ==> v'.settings.Get(f) == v.settings.Get(f)
  {
  }

  /** A chat turn, field by field, is what routing a chat line does. */
  lemma ChatRouted(text: string, io: Io, prompt: string, https: bool, top: int, v: View, v': View)
    requires v.settings.lmStudioBaseUrl.JStr? && v.settings.apiKey.JStr?
    requires top == GroupTop + HeightSum(v.history)
    requires v'.settings == v.settings && v'.modelLabel == v.modelLabel
    requires v'.history == v.history + ChatEntries(text, io.reply)
    requires v'.labels == v.labels + ChatBlocks(text, io.reply, top)
    requires v'.trace == v.trace + ChatEffects(v.settings, prompt, https, text, io)
    ensures Routed(Chat(text), io, prompt, https, v, v')
  {
  }

  lemma HeightSumAppend(history: seq<(string, int)>, e: seq<(string, int)>)
    ensures HeightSum(history + e) == HeightSum(history) + HeightSum(e)
    decreases |e|
  {
    if e != [] {
      assert (history + e)[..|history + e| - 1] == history + e[..|e| - 1];
      HeightSumAppend(history, e[..|e| - 1]);
    } else {
      assert history + e == history;
    }
  }

  /** The user's block followed by the reply's, placed under it, are the
      chat turn's blocks. */
  lemma ChatBlocksSplit(text: string, reply: Reply, top: int, top1: int, before: seq<Label>, mid: seq<Label>, after: seq<Label>)
    requires top1 == top + BlockHeight(UserMessage(text))
    requires mid == before + Block(UserMessage(text), top, UserColor)
    requires after == mid + ReplyBlocks(reply, top1)
    ensures after == before + ChatBlocks(text, reply, top)
  {
    ChatBlocksUnfold(text, reply, top, top1);
    AppendAssoc(before, Block(UserMessage(text), top, UserColor), ReplyBlocks(reply, top1));
  }

  lemma ChatBlocksUnfold(text: string, reply: Reply, top: int, top1: int)
    requires top1 == top + BlockHeight(UserMessage(text))
    ensures ChatBlocks(text, reply, top) == Block(UserMessage(text), top, UserColor) + ReplyBlocks(reply, top1)
  {
  }

  /** The user's entry followed by the reply's are the chat turn's
      entries. */
  lemma ChatEntriesSplit(text: string, reply: Reply, before: seq<(string, int)>, mid: seq<(string, int)>,
                         after: seq<(string, int)>)
    requires mid == before + [(UserMessage(text), BlockHeight(UserMessage(text)))]
    requires after == mid + ReplyEntries(reply)
    ensures after == before + ChatEntries(text, reply)
  {
  }

  /** The chat request followed by the reply's speech are the chat turn's
      effects. */
  lemma ChatEffectsSplit(s: Settings, prompt: string, https: bool, text: string, io: Io,
                         before: seq<Effect>, mid: seq<Effect>, after: seq<Effect>)
    requires s.lmStudioBaseUrl.JStr? && s.apiKey.JStr?
    requires mid == before + [Http(UserRequest(s, prompt, text))]
    requires after == mid + ReplyEffects(s, https, io)
    ensures after == before + ChatEffects(s, prompt, https, text, io)
  {
  }

  /** One more entry of height `height`, scrolled for: the corrected offset
      is where `ScrolledY` puts the new bottom, and the as-written offset has
      subtracted one overflow more. */
  lemma Rescrolled(history: seq<(string, int)>, msg: string, height: int, y: int, wy: int)
    requires height >= 0
    requires y == ScrolledY(GroupTop + HeightSum(history))
    requires wy == GroupTop - TotalOverflow(Bottoms(history))
    ensures var h' := history + [(msg, height)];
      var bottom := GroupTop + HeightSum(history) + height;
      && HeightSum(h') == HeightSum(history) + height
      && Scroll(y, bottom) == ScrolledY(GroupTop + HeightSum(h'))
      && Scroll(y, bottom) <= y
      && ScrollAsWritten(wy, bottom) == GroupTop - TotalOverflow(Bottoms(h'))
      && ScrollAsWritten(wy, bottom) <= wy
  {
    var h' := history + [(msg, height)];
    assert h'[..|h'| - 1] == history;
    var bottom := GroupTop + HeightSum(history) + height;
    ScrollKeepsNewestVisible(y, GroupTop + HeightSum(history), bottom);
    TotalOverflowSnoc(Bottoms(history), bottom);
  }

  class Session {
    const config: Config
    const systemPrompt: string
    /** Whether the model server's base URL is https; the TTS session only
        exists when it is not. */
    const https: bool
    var inputText: string
    var inputLabel: string
    var modelLabel: string
    /** `chat_history`: each message with the height it takes. */
    var history: seq<(string, int)>
    /** The labels appended to `chat_history_group`. */
    var groupLabels: seq<Label>
    /** `chat_history_group.y` under the corrected scroll. */
    var groupY: int
    /** `chat_history_group.y` as main.py:411 and 480 compute it, every
        overflow subtracted again. */
    ghost var writtenY: int
    var trace: seq<Effect>

    ghost predicate Valid()
      reads this, config
    {
      && config.lmStudioBaseUrl.JStr? && config.apiKey.JStr?
      && inputLabel == Prompt(inputText)
      && Stacked(groupLabels)
      && LineHeight * |groupLabels| == HeightSum(history)
      && groupY == ScrolledY(Bottom())
      && writtenY == GroupTop - TotalOverflow(Bottoms(history))
    }

    /** The state a submitted line can change. */
    function Snapshot(): View
      reads this, config
    {
      View(config.State(), modelLabel, history, groupLabels, trace)
    }

    /** How far down the transcript's content reaches, in group units. */
    function Bottom(): int
      reads this
    {
      GroupTop + HeightSum(history)
    }

    function Base(): string
      requires config.lmStudioBaseUrl.JStr?
      reads config
    {
      config.lmStudioBaseUrl.s
    }

    function AuthKey(): string
      requires config.apiKey.JStr?
      reads config
    {
      config.apiKey.s
    }

    /** Start-up after the settings have been loaded: the health check, then
        the auto-load when no model was ever used. The auto-load sets the
        model in memory before it asks; saving and the label wait for a 200. */
    constructor (cfg: Config, prompt: string, autoLoad: Reply, configWritable: bool)
      requires cfg.lmStudioBaseUrl.JStr? && cfg.apiKey.JStr?
      modifies cfg
      ensures Valid()
      ensures config == cfg && systemPrompt == prompt
      ensures https == StartsWith(cfg.lmStudioBaseUrl.s, "https://")
      ensures inputText == [] && history == [] && groupLabels == [] && groupY == GroupTop
      ensures old(cfg.lastUsedModel) != JNull ==>
                && cfg.State() == old(cfg.State())
                && modelLabel == "Model: " + PyStr(cfg.lastUsedModel)
                && trace == [Http(HealthCheckRequest(Base()))]
      ensures old(cfg.lastUsedModel) == JNull ==>
                && cfg.State() == old(cfg.State()).Set(LastUsedModel, JStr(DefaultModel))
                && var ok := autoLoad.Response? && autoLoad.status == 200;
                && modelLabel == (if ok then "Model: " + DefaultModel else "Model: None")
                && trace == [Http(HealthCheckRequest(Base())), Http(AutoLoadRequest(Base(), AuthKey()))]
                            + (if ok then [Saved(SaveResult(cfg.State(), configWritable))] else [])
    {
      config := cfg;
      systemPrompt := prompt;
      https := StartsWith(cfg.lmStudioBaseUrl.s, "https://");
      inputText := "";
      inputLabel := "> ";
      modelLabel := "Model: None";
      history := [];
      groupLabels := [];
      groupY := GroupTop;
      writtenY := GroupTop;
      trace := [Http(HealthCheckRequest(cfg.lmStudioBaseUrl.s))];
      new;
      AutoLoad(autoLoad, configWritable);
    }

    /** The start-up model check: with no model set, `phi-4-mini-instruct` is
        set in memory and loaded, then saved and shown on a 200; otherwise
        the model already set is shown. */
    method AutoLoad(autoLoad: Reply, configWritable: bool)
      requires config.lmStudioBaseUrl.JStr? && config.apiKey.JStr?
      modifies this`trace, this`modelLabel, config
      ensures old(config.lastUsedModel) != JNull ==>
                && config.State() == old(config.State())
                && modelLabel == "Model: " + PyStr(config.lastUsedModel)
                && trace == old(trace)
      ensures old(config.lastUsedModel) == JNull ==>
                && config.State() == old(config.State()).Set(LastUsedModel, JStr(DefaultModel))
                && var ok := autoLoad.Response? && autoLoad.status == 200;
                && modelLabel == (if ok then "Model: " + DefaultModel else old(modelLabel))
                && trace == old(trace) + [Http(AutoLoadRequest(old(Base()), old(AuthKey())))]
                            + (if ok then [Saved(SaveResult(config.State(), configWritable))] else [])
    {
      if config.lastUsedModel == JNull {
        var base, key := config.lmStudioBaseUrl.s, config.apiKey.s;
        config.SetAttr(LastUsedModel, JStr(DefaultModel));
        trace := trace + [Http(AutoLoadRequest(base, key))];
        if autoLoad.Response? && autoLoad.status == 200 {
          var saved := config.SaveConfig(configWritable);
          trace := trace + [Saved(saved)];
          modelLabel := "Model: " + DefaultModel;
        }
      } else {
        modelLabel := "Model: " + PyStr(config.lastUsedModel);
      }
    }

    /** Lays out `msg` below the transcript and records it with its height. */
    method AppendBlock(msg: string, color: int) returns (baseY: int, height: int)
      requires Stacked(groupLabels) && LineHeight * |groupLabels| == HeightSum(history)
      modifies this`history, this`groupLabels
      ensures baseY == old(Bottom()) && height == BlockHeight(msg)
      ensures history == old(history) + [(msg, height)]
      ensures groupLabels == old(groupLabels) + Block(msg, baseY, color)
      ensures Stacked(groupLabels) && LineHeight * |groupLabels| == HeightSum(history)
      ensures groupY == old(groupY) && writtenY == old(writtenY) && trace == old(trace)
      ensures inputText == old(inputText) && inputLabel == old(inputLabel) && modelLabel == old(modelLabel)
    {
      StackedAt(groupLabels);
      baseY := GroupTop + HeightSum(history);
      var labels, h := CreateMultiLineLabel(msg, LabelX, baseY, color, LineBudget);
      assert labels == Block(msg, baseY, color);
      groupLabels := groupLabels + labels;
      history := history + [(msg, h)];
      height := h;
      assert history[..|history| - 1] == old(history);
      forall i | 0 <= i < |groupLabels|
        ensures groupLabels[i].x == LabelX && groupLabels[i].y == GroupTop + LineHeight * i
      {
        if i >= |old(groupLabels)| {
          assert groupLabels[i] == labels[i - |old(groupLabels)|];
        } else {
          assert groupLabels[i] == old(groupLabels)[i];
        }
      }
      StackedAt(groupLabels);
    }

    /** The scroll after a message whose content reaches down to `totalY`. */
    method ScrollTo(totalY: int)
      modifies this`groupY, this`writtenY
      ensures groupY == Scroll(old(groupY), totalY)
      ensures writtenY == ScrollAsWritten(old(writtenY), totalY)
      ensures history == old(history) && groupLabels == old(groupLabels) && trace == old(trace)
      ensures inputText == old(inputText) && inputLabel == old(inputLabel) && modelLabel == old(modelLabel)
    {
      if totalY > VisibleHeight {
        groupY := GroupTop - (totalY - VisibleHeight);
        writtenY := writtenY - (totalY - VisibleHeight);
      }
    }

    /** The TTS block after an assistant message: generate, then write, play
        and remove the temp file. */
    method Speak(content: Json, io: Io)
      requires config.apiKey.JStr?
      modifies this`trace
      ensures trace == old(trace) + SpeechEffects(config.State(), content, https, io.speech, io.audioWrite)
      ensures history == old(history) && groupLabels == old(groupLabels) && groupY == old(groupY)
      ensures writtenY == old(writtenY)
      ensures inputText == old(inputText) && inputLabel == old(inputLabel) && modelLabel == old(modelLabel)
    {
      var settings := config.State();
      if !Sized(content) {
        return;
      }
      var tts := GenerateAudio(settings, content, https, io.speech);
      ghost var t0, sent := trace, if tts.sent.Some? then [Http(tts.sent.value)] else [];
      SpeechEffectsOf(settings, content, https, io.speech, io.audioWrite);
      if tts.sent.Some? {
        trace := trace + [Http(tts.sent.value)];
      }
      WriteAndPlay(TempAudioPath(settings), tts.audio, io.audioWrite);
      AppendAssoc(t0, sent, AudioFileOps(TempAudioPath(settings), tts.audio, io.audioWrite));
    }

    /** `if audio_bytes:` the temp file is written, played and removed; a
        write that raises after the open leaves it behind, unplayed. */
    method WriteAndPlay(path: string, audio: Option<Bytes>, write: AudioWrite)
      modifies this`trace
      ensures trace == old(trace) + AudioFileOps(path, audio, write)
      ensures history == old(history) && groupLabels == old(groupLabels) && groupY == old(groupY)
      ensures writtenY == old(writtenY)
      ensures inputText == old(inputText) && inputLabel == old(inputLabel) && modelLabel == old(modelLabel)
    {
      if audio.Some? && audio.value != [] && !write.OpenFails? {
        trace := trace + [WriteAudio(path, audio.value)];
        if write.WriteCompletes? {
          trace := trace + [PlayAudio(path)];
          trace := trace + [RemoveAudio(path)];
        }
      }
    }

    /** A line that is not a command: the user's entry goes in and is
        scrolled into view before the request is sent; the assistant's entry
        follows only for a 200 with a completion. */
    method ChatTurn(text: string, io: Io)
      requires Valid()
      modifies this
      ensures Valid()
      ensures Routed(Chat(text), io, systemPrompt, https, old(Snapshot()), Snapshot())
      ensures groupY <= old(groupY) && writtenY <= old(writtenY)
      ensures inputText == old(inputText)
    {
      ghost var before := Snapshot();
      ghost var top := Bottom();
      ghost var history0, trace0 := history, trace;
      SendUserLine(text, top);
      var user := UserMessage(text);
      assert [(user, BlockHeight(user))][..0] == [];
      HeightSumAppend(old(history), [(user, BlockHeight(user))]);
      ghost var history1, labels1, trace1, top1 := history, groupLabels, trace, Bottom();
      assert top1 == top + BlockHeight(user);
      ShowAnswer(io, top1);
      ChatBlocksSplit(text, io.reply, top, top1, old(groupLabels), labels1, groupLabels);
      ChatEntriesSplit(text, io.reply, history0, history1, history);
      ChatEffectsSplit(config.State(), systemPrompt, https, text, io, trace0, trace1, trace);
      ChatRouted(text, io, systemPrompt, https, top, before, Snapshot());
    }

    /** The assistant's side of a chat turn: its entry, speech and scroll
        when the reply carries content; nothing otherwise. */
    method ShowAnswer(io: Io, ghost top: int)
      requires Valid() && top == Bottom()
      modifies this
      ensures Valid()
      ensures history == old(history) + ReplyEntries(io.reply)
      ensures groupLabels == old(groupLabels) + ReplyBlocks(io.reply, top)
      ensures trace == old(trace) + ReplyEffects(config.State(), https, io)
      ensures groupY <= old(groupY) && writtenY <= old(writtenY)
      ensures inputText == old(inputText) && modelLabel == old(modelLabel)
    {
      var content := AssistantContent(io.reply);
      if content.Some? {
        ShowReply(content.value, io);
      }
    }

    /** The user's entry, its scroll, and the chat request. */
    method SendUserLine(text: string, ghost top: int)
      requires Valid() && top == Bottom()
      modifies this
      ensures Valid()
      ensures history == old(history) + [(UserMessage(text), BlockHeight(UserMessage(text)))]
      ensures groupLabels == old(groupLabels) + Block(UserMessage(text), top, UserColor)
      ensures trace == old(trace) + [Http(UserRequest(config.State(), systemPrompt, text))]
      ensures groupY <= old(groupY) && writtenY <= old(writtenY)
      ensures inputText == old(inputText) && inputLabel == old(inputLabel) && modelLabel == old(modelLabel)
    {
      var userMessage := UserMessage(text);
      var baseY, height := AppendBlock(userMessage, UserColor);
      ScrollTo(baseY + height);
      Rescrolled(old(history), userMessage, height, old(groupY), old(writtenY));
      var request := ChatRequest(config.lmStudioBaseUrl.s, config.apiKey.s, config.lastUsedModel, systemPrompt, text);
      trace := trace + [Http(request)];
    }

    /** The assistant's entry, the speech for it, then its scroll. */
    method ShowReply(content: Json, io: Io)
      requires Valid()
      modifies this
      ensures Valid()
      ensures history == old(history) + [(AssistantMessage(content), BlockHeight(AssistantMessage(content)))]
      ensures groupLabels == old(groupLabels) + Block(AssistantMessage(content), old(Bottom()), AssistantColor)
      ensures trace == old(trace) + SpeechEffects(config.State(), content, https, io.speech, io.audioWrite)
      ensures groupY <= old(groupY) && writtenY <= old(writtenY)
      ensures inputText == old(inputText) && inputLabel == old(inputLabel) && modelLabel == old(modelLabel)
    {
      var assistantMessage := AssistantMessage(content);
      var baseY, height := AppendBlock(assistantMessage, AssistantColor);
      Speak(content, io);
      ScrollTo(baseY + height);
      Rescrolled(old(history), assistantMessage, height, old(groupY), old(writtenY));
    }

    /** `/load <name>`: the model, the saved file and the label change only
        on a 200, and then all name `name`. */
    method LoadModel(name: string, io: Io)
      requires Valid()
      modifies this, config
      ensures Valid()
      ensures var ok := io.reply.Response? && io.reply.status == 200;
        && config.State() == (if ok then old(config.State()).Set(LastUsedModel, JStr(name)) else old(config.State()))
        && modelLabel == (if ok then "Model: " + name else old(modelLabel))
        && trace == old(trace) + [Http(LoadRequest(Base(), AuthKey(), name))]
                    + (if ok then [Saved(SaveResult(config.State(), io.configWritable))] else [])
      ensures history == old(history) && groupLabels == old(groupLabels) && groupY == old(groupY)
      ensures writtenY == old(writtenY)
      ensures inputText == old(inputText)
      ensures Routed(Load(name), io, systemPrompt, https, old(Snapshot()), Snapshot())
    {
      trace := trace + [Http(LoadRequest(config.lmStudioBaseUrl.s, config.apiKey.s, name))];
      if io.reply.Response? && io.reply.status == 200 {
        config.SetAttr(LastUsedModel, JStr(name));
        var saved := config.SaveConfig(io.configWritable);
        trace := trace + [Saved(saved)];
        modelLabel := "Model: " + name;
      }
    }

    /** Enter: the pending line is routed, then cleared. */
    method Submit(io: Io)
      requires Valid()
      modifies this, config
      ensures Valid()
      ensures inputText == [] && inputLabel == "> "
      ensures groupY <= old(groupY) && writtenY <= old(writtenY)
      ensures old(history) <= history && old(trace) <= trace
      ensures Routed(Classify(old(inputText)), io, systemPrompt, https, old(Snapshot()), Snapshot())
    {
      var command := Classify(inputText);
      ghost var before := Snapshot();
      match command {
        case Chat(text) =>
          ChatTurn(text, io);
        case ListModels =>
          trace := trace + [Http(ListModelsRequest(config.lmStudioBaseUrl.s, config.apiKey.s))];
        case Load(name) =>
          LoadModel(name, io);
        case LoadUsage =>
        case Unknown =>
      }
      assert Routed(command, io, systemPrompt, https, before, Snapshot());
      RoutedAppendsOnly(command, io, systemPrompt, https, before, Snapshot());
      SetInput("");
    }

    /** The pending line becomes `text`, and the input label shows it after
        the prompt; nothing else changes. */
    method SetInput(text: string)
      requires Valid()
      modifies this
      ensures Valid()
      ensures inputText == text && inputLabel == Prompt(text)
      ensures Snapshot() == old(Snapshot())
      ensures groupY == old(groupY) && writtenY == old(writtenY)
    {
      inputText := text;
      inputLabel := Prompt(text);
    }

    /** One pass of the main loop with key `key` (`""` when no key was
        pressed). */
    method HandleKey(key: string, io: Io)
      requires Valid()
      modifies this, config
      ensures Valid()
      ensures groupY <= old(groupY) && writtenY <= old(writtenY)
      ensures old(history) <= history && old(trace) <= trace
      ensures key == "" ==> unchanged(this) && unchanged(config)
      ensures key == EnterKey ==>
                && inputText == []
                && Routed(Classify(old(inputText)), io, systemPrompt, https, old(Snapshot()), Snapshot())
      ensures key != EnterKey ==> Snapshot() == old(Snapshot())
      ensures key == BackspaceKey ==> inputText == Backspace(old(inputText))
      ensures key != "" && key != EnterKey && key != BackspaceKey ==> inputText == old(inputText) + key
      ensures key != EnterKey ==>
                && history == old(history) && trace == old(trace)
                && config.State() == old(config.State()) && modelLabel == old(modelLabel)
    {
      if key == "" {
        return;
      }
      if key == EnterKey {
        Submit(io);
      } else if key == BackspaceKey {
        inputText := Backspace(inputText);
        inputLabel := Prompt(inputText);
      } else {
        inputText := inputText + key;
        inputLabel := Prompt(inputText);
      }
    }
  }
}
