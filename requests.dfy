/** The HTTP requests the session sends to the model server and the parts of
    the replies it reads. The transport is left out: a request is a value and
    a reply is an input. */
module Requests {
  import opened Text
  import opened JsonValues

  datatype Request =
    | Get(url: string, headers: map<string, string>)
    | Post(url: string, body: Json, headers: map<string, string>)

  /** What a call returns: a status with the decoded JSON body (`None` when
      `response.json()` would raise), or an exception from the transport. */
  datatype Reply = Response(status: int, body: Option<Json>) | Raised

  /** The model the session falls back to. */
  const DefaultModel: string := "phi-4-mini-instruct"


  /** `api_key and api_key.strip()`. */
  predicate HasToken(key: string) {
    key != [] && Strip(key) != []
  }

  /** The conditional `Authorization` header: present exactly when the key
      has a non-blank character. */
  function AuthHeader(key: string): (h: map<string, string>)
    ensures "Authorization" in h <==> !AllSpace(key)
    ensures "Authorization" in h ==> h["Authorization"] == "Bearer " + key
    ensures h.Keys <= {"Authorization"}
  {
    if HasToken(key) then map["Authorization" := "Bearer " + key] else map[]
  }

  /** `headers["Authorization"] = f"Bearer {api_key}"` under the
      `api_key.strip()` guard: the header is there exactly for a non-blank
      key, and then carries it. */
  predicate ConditionalAuth(h: map<string, string>, key: string) {
    && ("Authorization" in h <==> !AllSpace(key))
    && ("Authorization" in h ==> h["Authorization"] == "Bearer " + key)
  }

  /** `{"Content-Type": "application/json"}` plus the conditional
      `Authorization`, the headers of `/load` and of a chat turn. */
  function JsonHeaders(key: string): (h: map<string, string>)
    ensures h.Keys <= {"Content-Type", "Authorization"}
    ensures "Content-Type" in h && h["Content-Type"] == "application/json"
    ensures ConditionalAuth(h, key)
  {
    map["Content-Type" := "application/json"] + AuthHeader(key)
  }

  /** The startup reachability check: a GET of `/models` with no headers at
      all (the conditional header is built but not passed). */
  function HealthCheckRequest(base: string): (r: Request)
    ensures r.Get? && r.url == base + "/models"
    ensures r.headers == map[]
  {
    Get(base + "/models", map[])
  }

  /** `/models`: a GET whose only possible header is the conditional
      `Authorization`. */
  function ListModelsRequest(base: string, key: string): (r: Request)
    ensures r.Get? && r.url == base + "/models"
    ensures r.headers.Keys <= {"Authorization"} && ConditionalAuth(r.headers, key)
  {
    Get(base + "/models", AuthHeader(key))
  }

  function ModelBody(name: string): Json {
    JObj(map["model" := JStr(name)])
  }

  /** `/load <name>`: a POST of `{"model": name}` with the JSON content type
      and the conditional `Authorization`. */
  function LoadRequest(base: string, key: string, name: string): (r: Request)
    ensures r.Post? && r.url == base + "/models"
    ensures r.body.JObj? && r.body.fields.Keys == {"model"} && r.body.fields["model"] == JStr(name)
    ensures r.headers == JsonHeaders(key)
  {
    Post(base + "/models", ModelBody(name), JsonHeaders(key))
  }

  /** The startup auto-load: a POST of the default model whose header always
      carries the key, blank or not. */
  function AutoLoadRequest(base: string, key: string): (r: Request)
    ensures r.Post? && r.url == base + "/models"
    ensures r.body.JObj? && r.body.fields.Keys == {"model"} && r.body.fields["model"] == JStr(DefaultModel)
    ensures r.headers.Keys == {"Content-Type", "Authorization"}
    ensures r.headers["Content-Type"] == "application/json" && r.headers["Authorization"] == "Bearer " + key
  {
    Post(base + "/models", ModelBody(DefaultModel),
         map["Authorization" := "Bearer " + key, "Content-Type" := "application/json"])
  }

  /** `last_used_model or "phi-4-mini-instruct"`: always a truthy model. */
  function ChatModel(lastUsed: Json): (m: Json)
    ensures Truthy(m)
    ensures Truthy(lastUsed) ==> m == lastUsed
    ensures !Truthy(lastUsed) ==> m == JStr(DefaultModel)
  {
    Or(lastUsed, JStr(DefaultModel))
  }

  function Message(role: string, content: string): Json {
    JObj(map["role" := JStr(role), "content" := JStr(content)])
  }

  /** The user turn, with the system prompt put in front exactly when it is
      not empty. */
  function Messages(systemPrompt: string, input: string): (ms: seq<Json>)
    ensures |ms| == if systemPrompt != [] then 2 else 1
    ensures ms[|ms| - 1] == Message("user", input)
    ensures systemPrompt != [] ==> ms[0] == Message("system", systemPrompt)
  {
    var user := [Message("user", input)];
    if systemPrompt != [] then [Message("system", systemPrompt)] + user else user
  }

  /** A chat turn: a POST to `/chat/completions` of the model and the
      messages, with the JSON content type and the conditional
      `Authorization`. */
  function ChatRequest(base: string, key: string, lastUsed: Json, systemPrompt: string, input: string): (r: Request)
    ensures r.Post? && r.url == base + "/chat/completions"
    ensures r.body.JObj? && r.body.fields.Keys == {"model", "messages"}
    ensures r.body.fields["model"] == ChatModel(lastUsed)
    ensures r.body.fields["messages"] == JArr(Messages(systemPrompt, input))
    ensures r.headers == JsonHeaders(key)
  {
    Post(base + "/chat/completions",
         JObj(map["model" := ChatModel(lastUsed), "messages" := JArr(Messages(systemPrompt, input))]),
         JsonHeaders(key))
  }

  /** `/models`, `/load` and a chat turn send `Authorization` exactly when the
      key is not blank; the auto-load sends it even for a blank key. */
  lemma AuthorizationIff(base: string, key: string, name: string, lastUsed: Json, systemPrompt: string, input: string)
    ensures "Authorization" in ListModelsRequest(base, key).headers <==> !AllSpace(key)
    ensures "Authorization" in LoadRequest(base, key, name).headers <==> !AllSpace(key)
    ensures "Authorization" in ChatRequest(base, key, lastUsed, systemPrompt, input).headers <==> !AllSpace(key)
    ensures AutoLoadRequest(base, key).headers["Authorization"] == "Bearer " + key
  {
  }

  /** A blank key gives the auto-load a header that `/load` of the same model
      leaves out. */
  lemma AutoLoadDiffersOnBlankKey(base: string, key: string)
    requires AllSpace(key)
    ensures "Authorization" in AutoLoadRequest(base, key).headers
    ensures "Authorization" !in LoadRequest(base, key, DefaultModel).headers
    ensures AutoLoadRequest(base, key).body == LoadRequest(base, key, DefaultModel).body
  {
  }

  /** `assistant_response['choices'][0]['message']['content']`: `None` when
      any step of the lookup would raise. What is found is the `content` of
      the `message` of the first of the `choices`. */
  function ExtractContent(body: Json): (c: Option<Json>)
    ensures c.Some? ==> body.JObj? && "choices" in body.fields
    ensures c.Some? ==>
      && var choices := body.fields["choices"];
      && choices.JArr? && choices.items != [] && choices.items[0].JObj?
      && "message" in choices.items[0].fields
      && var message := choices.items[0].fields["message"];
      && message.JObj? && "content" in message.fields && message.fields["content"] == c.value
  {
    if body.JObj? && "choices" in body.fields then
      var choices := body.fields["choices"];
      if choices.JArr? && |choices.items| > 0 && choices.items[0].JObj? && "message" in choices.items[0].fields then
        var message := choices.items[0].fields["message"];
        if message.JObj? && "content" in message.fields then Some(message.fields["content"]) else None
      else None
    else None
  }

  /** Any completion yields its content, whatever other keys the body, the
      first choice and its message carry and whatever further choices
      follow. */
  lemma ExtractsCompletion(body: map<string, Json>, choice: map<string, Json>, message: map<string, Json>,
                           others: seq<Json>, content: Json)
    ensures ExtractContent(JObj(body["choices" := JArr([JObj(choice["message" := JObj(message["content" := content])])] + others)]))
            == Some(content)
  {
  }

  /** A body that is not an object, or an object without `choices` (an
      error object, say), yields nothing. */
  lemma ErrorBodyYieldsNothing(body: Json)
    requires !body.JObj? || "choices" !in body.fields
    ensures ExtractContent(body) == None
  {
  }

  /** The reply's content when the chat call answered 200 with a completion. */
  function AssistantContent(reply: Reply): (c: Option<Json>)
    ensures c.Some? ==> reply.Response? && reply.status == 200 && reply.body.Some?
    ensures c.Some? ==> ExtractContent(reply.body.value) == c
    ensures reply.Response? && reply.status == 200 && reply.body.Some? && ExtractContent(reply.body.value).Some? ==>
              c.Some?
  {
    if reply.Response? && reply.status == 200 && reply.body.Some? then ExtractContent(reply.body.value) else None
  }

  /** The transcript line for an assistant reply. */
  function AssistantMessage(content: Json): string {
    "YoYo:: " + PyStr(content)
  }
}
