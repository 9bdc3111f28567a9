/**
 * The four provider adapters of `LLMClient` (app.py:115-239): each turns a
 * user message and an optional context text into one outbound HTTP request,
 * and reads the reply text out of the decoded response body along a fixed
 * path of subscripts.
 */
module Providers {
  import opened Wrappers
  import opened JsonValue

  /** The client's five settings, as `LLMClient.__init__` read them (app.py:91-96). */
  datatype Settings = Settings(provider: Json, apiKey: Json, baseUrl: Json, model: Json, temperature: Json)

  datatype Adapter = OpenAI | Anthropic | Ollama | Custom

  /**
   * The dispatch of `chat` (app.py:104-111): the three known provider names
   * each select their own adapter, and every other value, whatever its type,
   * selects the OpenAI-compatible custom adapter.
   */
  function Route(provider: Json): (a: Adapter)
    ensures a == OpenAI <==> provider == JStr("openai")
    ensures a == Anthropic <==> provider == JStr("anthropic")
    ensures a == Ollama <==> provider == JStr("ollama")
    ensures a == Custom <==> provider !in {JStr("openai"), JStr("anthropic"), JStr("ollama")}
  {
    if provider == JStr("openai") then OpenAI
    else if provider == JStr("anthropic") then Anthropic
    else if provider == JStr("ollama") then Ollama
    else Custom
  }

  /** `_get_system_prompt` (app.py:231-239). */
  const BasePrompt: string :=
    "당신은 Shimplex AI 어시스턴트입니다. 사용자의 개인 데이터를 분석하고 도움을 제공합니다.\n\n"
    + "능력:\n"
    + "1. pinehill-manager 데이터베이스 조회 (원룸 19세대 관리)\n"
    + "2. 월세/지출 현황 분석\n"
    + "3. 일반적인 질문 답변\n\n"
    + "응답은 간결하고 친절하게 한국어로 해주세요."

  /** The separator each adapter puts between the base prompt and a context text. */
  const ContextHeading: string := "\n\n[컨텍스트]\n"

  /**
   * The system prompt every adapter sends (app.py:121-123 and its three
   * copies): the base prompt, followed by the heading and the context exactly
   * when the context is not empty.
   */
  function SystemPrompt(context: string): (p: string)
    ensures |BasePrompt| <= |p| && p[..|BasePrompt|] == BasePrompt
    ensures p == BasePrompt <==> context == ""
    ensures context != "" ==> p[|BasePrompt|..] == ContextHeading + context
  {
    if context != "" then BasePrompt + ContextHeading + context else BasePrompt
  }

  /** One element of a request's `messages` list. */
  function Message(role: string, content: string): Json
  {
    JObj(map["role" := JStr(role), "content" := JStr(content)])
  }

  datatype Request = Request(url: string, headers: seq<(string, string)>, body: Json, timeoutSeconds: nat)

  const OpenAIUrl: string := "https://api.openai.com/v1/chat/completions"
  const AnthropicUrl: string := "https://api.anthropic.com/v1/messages"
  const OllamaDefaultBase: string := "http://localhost:11434"
  const OllamaDefaultModel: string := "llama3.1:8b"

  /** The headers of the two bearer-token adapters (app.py:116-119, 202-205). */
  function BearerHeaders(s: Settings): seq<(string, string)>
  {
    [("Authorization", "Bearer " + Text(s.apiKey)), ("Content-Type", "application/json")]
  }

  /**
   * The request each adapter posts: `_chat_openai` (app.py:116-140),
   * `_chat_anthropic` (app.py:146-168), `_chat_ollama` (app.py:175-195) and
   * `_chat_custom` (app.py:202-226). Timeouts are in seconds.
   */
  function BuildRequest(a: Adapter, s: Settings, message: string, context: string): Request
  {
    var prompt := SystemPrompt(context);
    match a
    case OpenAI =>
      Request(OpenAIUrl, BearerHeaders(s),
        JObj(map["model" := s.model,
                 "messages" := JArr([Message("system", prompt), Message("user", message)]),
                 "temperature" := s.temperature]),
        60)
    case Anthropic =>
      Request(AnthropicUrl,
        [("x-api-key", Text(s.apiKey)), ("Content-Type", "application/json")],
        JObj(map["model" := s.model,
                 "max_tokens" := JNum(Int(4096)),
                 "system" := JStr(prompt),
                 "messages" := JArr([Message("user", message)]),
                 "temperature" := s.temperature]),
        60)
    case Ollama =>
      Request(Text(Or(s.baseUrl, JStr(OllamaDefaultBase))) + "/api/chat", [],
        JObj(map["model" := Or(s.model, JStr(OllamaDefaultModel)),
                 "messages" := JArr([Message("system", prompt), Message("user", message)]),
                 "stream" := JBool(false)]),
        120)
    case Custom =>
      Request(Text(s.baseUrl) + "/v1/chat/completions", BearerHeaders(s),
        JObj(map["model" := s.model,
                 "messages" := JArr([Message("system", prompt), Message("user", message)]),
                 "temperature" := s.temperature]),
        60)
  }

  /** The system prompt as the request carries it: Anthropic's `system` field, or the first message elsewhere. */
  function PromptSent(a: Adapter, r: Request): Option<Json>
  {
    if !r.body.JObj? then None
    else if a == Anthropic then
      if "system" in r.body.fields then Some(r.body.fields["system"]) else None
    else if "messages" in r.body.fields && r.body.fields["messages"].JArr?
      && |r.body.fields["messages"].items| > 0
      && r.body.fields["messages"].items[0].JObj? && "content" in r.body.fields["messages"].items[0].fields
    then Some(r.body.fields["messages"].items[0].fields["content"])
    else None
  }

  /** Every adapter carries the same system prompt, extended by the context exactly when there is one. */
  lemma PromptSentByEveryAdapter(a: Adapter, s: Settings, message: string, context: string)
    ensures PromptSent(a, BuildRequest(a, s, message, context)) == Some(JStr(SystemPrompt(context)))
    ensures context == "" ==> PromptSent(a, BuildRequest(a, s, message, context)) == Some(JStr(BasePrompt))
  {
  }

  /**
   * The wire shape of each adapter's request: URL, authentication, the
   * conversation sent and the timeout.
   */
  lemma RequestShape(a: Adapter, s: Settings, message: string, context: string)
    ensures var r := BuildRequest(a, s, message, context);
      && r.body.JObj? && "messages" in r.body.fields && r.body.fields["messages"].JArr?
      && (a == OpenAI ==>
            && r.url == OpenAIUrl && r.timeoutSeconds == 60
            && r.headers == [("Authorization", "Bearer " + Text(s.apiKey)), ("Content-Type", "application/json")]
            && r.body.fields["messages"].items == [Message("system", SystemPrompt(context)), Message("user", message)])
      && (a == Anthropic ==>
            && r.url == AnthropicUrl && r.timeoutSeconds == 60
            && r.headers == [("x-api-key", Text(s.apiKey)), ("Content-Type", "application/json")]
            && r.body.fields["max_tokens"] == JNum(Int(4096))
            && r.body.fields["messages"].items == [Message("user", message)])
      && (a == Ollama ==>
            && r.timeoutSeconds == 120 && r.headers == []
            && r.url == (if Truthy(s.baseUrl) then Text(s.baseUrl) else OllamaDefaultBase) + "/api/chat"
            && r.body.fields["model"] == (if Truthy(s.model) then s.model else JStr(OllamaDefaultModel))
            && r.body.fields["stream"] == JBool(false) && "temperature" !in r.body.fields)
      && (a == Custom ==>
            && r.url == Text(s.baseUrl) + "/v1/chat/completions" && r.timeoutSeconds == 60
            && r.headers == BuildRequest(OpenAI, s, message, context).headers
            && r.body == BuildRequest(OpenAI, s, message, context).body)
  {
  }

  /** One Python subscript step: a dict key, or a list or string position. */
  datatype Key = Name(name: string) | Pos(index: int)

  /** The position Python's index `i` names in a sequence of length `n`: negative indices count from the end. */
  function Index(i: int, n: nat): (p: nat)
    requires -(n as int) <= i < n
    ensures p < n && (i >= 0 ==> p == i) && (i < 0 ==> p + (-i) == n)
  {
    if i < 0 then n + i else i
  }

  /**
   * Python's `j[k]` on a decoded JSON value, with `str(e)` of the exception it
   * raises when it fails (CPython 3.11 wording).
   */
  function Subscript(j: Json, k: Key): (r: Result<Json>)
    ensures r.Ok? ==>
      || (j.JObj? && k.Name? && k.name in j.fields && r.value == j.fields[k.name])
      || (j.JArr? && k.Pos? && -|j.items| <= k.index < |j.items| && r.value == j.items[Index(k.index, |j.items|)])
      || (j.JStr? && k.Pos? && -|j.s| <= k.index < |j.s| && r.value == JStr([j.s[Index(k.index, |j.s|)]]))
    ensures
      || (j.JObj? && k.Name? && k.name in j.fields)
      || (j.JArr? && k.Pos? && -|j.items| <= k.index < |j.items|)
      || (j.JStr? && k.Pos? && -|j.s| <= k.index < |j.s|)
      ==> r.Ok?
  {
    match j
    case JObj(fields) =>
      (match k
       case Name(n) => if n in fields then Ok(fields[n]) else Err("'" + n + "'")
       case Pos(i) => Err(IntText(i)))
    case JArr(items) =>
      (match k
       case Pos(i) => if -|items| <= i < |items| then Ok(items[Index(i, |items|)]) else Err("list index out of range")
       case Name(_) => Err("list indices must be integers or slices, not str"))
    case JStr(s) =>
      (match k
       case Pos(i) => if -|s| <= i < |s| then Ok(JStr([s[Index(i, |s|)]])) else Err("string index out of range")
       case Name(_) => Err("string indices must be integers, not 'str'"))
    case JNull => Err("'NoneType' object is not subscriptable")
    case JBool(_) => Err("'bool' object is not subscriptable")
    case JNum(Int(_)) => Err("'int' object is not subscriptable")
    case JNum(Float(_, _)) => Err("'float' object is not subscriptable")
  }

  /** A chain of subscripts, `j[k0][k1]...`, stopping at the first that raises. */
  function Follow(j: Json, path: seq<Key>): Result<Json>
    decreases |path|
  {
    if path == [] then Ok(j)
    else
      match Subscript(j, path[0])
      case Err(e) => Err(e)
      case Ok(child) => Follow(child, path[1..])
  }

  /** The reply paths of app.py:143, 172, 198 and 229. */
  function ReplyPath(a: Adapter): seq<Key>
  {
    match a
    case OpenAI => [Name("choices"), Pos(0), Name("message"), Name("content")]
    case Custom => [Name("choices"), Pos(0), Name("message"), Name("content")]
    case Anthropic => [Name("content"), Pos(0), Name("text")]
    case Ollama => [Name("message"), Name("content")]
  }

  function ExtractReply(a: Adapter, body: Json): Result<Json>
  {
    Follow(body, ReplyPath(a))
  }

  /** `j` is an object with `key`, whose value is `v`. */
  predicate Field(j: Json, key: string, v: Json) {
    j.JObj? && key in j.fields && j.fields[key] == v
  }

  /** `j` is a non-empty list whose first element is `v`. */
  predicate First(j: Json, v: Json) {
    j.JArr? && |j.items| > 0 && j.items[0] == v
  }

  /** One step of `Follow`. */
  lemma FollowStep(j: Json, path: seq<Key>)
    requires path != []
    ensures Follow(j, path) ==
      (match Subscript(j, path[0])
       case Err(e) => Err(e)
       case Ok(child) => Follow(child, path[1..]))
  {
  }

  /** Following a key succeeds exactly when the value is an object holding the key and the rest succeeds from there. */
  lemma FollowName(j: Json, name: string, rest: seq<Key>, v: Json)
    ensures Follow(j, [Name(name)] + rest) == Ok(v) <==>
      exists c :: Field(j, name, c) && Follow(c, rest) == Ok(v)
  {
    var path := [Name(name)] + rest;
    assert path[0] == Name(name) && path[1..] == rest;
    FollowStep(j, path);
    if Follow(j, path) == Ok(v) {
      assert Field(j, name, j.fields[name]);
    }
  }

  /**
   * Following `[0]` and then a key succeeds exactly when the value is a
   * non-empty list whose first element holds the key: a string's first
   * character is a string, which no key subscripts.
   */
  lemma FollowFirstName(j: Json, name: string, rest: seq<Key>, v: Json)
    ensures Follow(j, [Pos(0), Name(name)] + rest) == Ok(v) <==>
      exists f, c :: First(j, f) && Field(f, name, c) && Follow(c, rest) == Ok(v)
  {
    var path := [Pos(0), Name(name)] + rest;
    assert path[0] == Pos(0) && path[1..] == [Name(name)] + rest;
    FollowStep(j, path);
    var s0 := Subscript(j, Pos(0));
    if s0.Ok? {
      FollowName(s0.value, name, rest, v);
      if Follow(j, path) == Ok(v) {
        assert j.JArr?;
        assert First(j, s0.value);
      }
    }
  }

  /** A last key: following it succeeds exactly when the value is an object holding the key, and yields its value. */
  lemma FollowLastName(j: Json, name: string, v: Json)
    ensures Follow(j, [Name(name)]) == Ok(v) <==> Field(j, name, v)
  {
    FollowStep(j, [Name(name)]);
    assert [Name(name)][1..] == [];
  }

  /**
   * The reply of the OpenAI and custom adapters is `choices[0].message.content`,
   * and nothing else succeeds: a body lacking that path is an error, never a
   * default.
   */
  lemma {:induction false} OpenAIReplyPath(a: Adapter, body: Json, reply: Json)
    requires a == OpenAI || a == Custom
    ensures ExtractReply(a, body) == Ok(reply) <==>
      exists choices, first, message ::
        Field(body, "choices", choices) && First(choices, first)
        && Field(first, "message", message) && Field(message, "content", reply)
  {
    var last := [Name("content")];
    var mid := [Pos(0), Name("message")] + last;
    assert ReplyPath(a) == [Name("choices")] + mid;
    FollowName(body, "choices", mid, reply);
    forall c ensures Follow(c, mid) == Ok(reply) <==> exists f, m :: First(c, f) && Field(f, "message", m) && Follow(m, last) == Ok(reply) {
      FollowFirstName(c, "message", last, reply);
    }
    forall m ensures Follow(m, last) == Ok(reply) <==> Field(m, "content", reply) {
      FollowLastName(m, "content", reply);
    }
  }

  /** The Anthropic reply is `content[0].text`, and nothing else succeeds. */
  lemma {:induction false} AnthropicReplyPath(body: Json, reply: Json)
    ensures ExtractReply(Anthropic, body) == Ok(reply) <==>
      exists content, first :: Field(body, "content", content) && First(content, first) && Field(first, "text", reply)
  {
    var tail := [Pos(0), Name("text")];
    assert ReplyPath(Anthropic) == [Name("content")] + tail;
    FollowName(body, "content", tail, reply);
    forall c ensures Follow(c, tail) == Ok(reply) <==> exists f :: First(c, f) && Field(f, "text", reply) {
      assert tail == [Pos(0), Name("text")] + [];
      FollowFirstName(c, "text", [], reply);
      forall t ensures Follow(t, []) == Ok(reply) <==> t == reply { }
    }
  }

  /** The Ollama reply is `message.content`, and nothing else succeeds. */
  lemma {:induction false} OllamaReplyPath(body: Json, reply: Json)
    ensures ExtractReply(Ollama, body) == Ok(reply) <==>
      exists message :: Field(body, "message", message) && Field(message, "content", reply)
  {
    var tail := [Name("content")];
    assert ReplyPath(Ollama) == [Name("message")] + tail;
    FollowName(body, "message", tail, reply);
    forall m ensures Follow(m, tail) == Ok(reply) <==> Field(m, "content", reply) {
      FollowLastName(m, "content", reply);
    }
  }

  /** A body without the reply path's first key fails with Python's KeyError text for that key. */
  lemma MissingTopKey(a: Adapter, body: Json)
    requires body.JObj? && ReplyPath(a)[0].name !in body.fields
    ensures ExtractReply(a, body) == Err("'" + ReplyPath(a)[0].name + "'")
  {
  }
}
