/**
 * `LLMClient` (app.py:90-113, 241): five settings read once from the
 * settings store, and `chat`, which answers one message with at most one
 * outbound request and never raises.
 */
module LlmClient {
  import opened Wrappers
  import opened JsonValue
  import opened DottedPaths
  import opened ConfigStore
  import opened Providers

  /** The settings `LLMClient.__init__` reads, with its defaults (app.py:92-96). */
  function SettingsOf(data: Json): Settings
  {
    Settings(
      Lookup(data, Split(Dotted("llm", "provider")), JStr("openai")),
      Lookup(data, Split(Dotted("llm", "api_key")), JStr("")),
      Lookup(data, Split(Dotted("llm", "base_url")), JStr("")),
      Lookup(data, Split(Dotted("llm", "model")), JStr("gpt-4o-mini")),
      Lookup(data, Split(Dotted("llm", "temperature")), JNum(Float(7, -1))))
  }

  /** A setting of the default `llm` section reads its default value. */
  lemma DefaultLlmSetting(name: string, default: Json)
    requires '.' !in name && name in DefaultConfig().fields["llm"].fields
    ensures Lookup(DefaultConfig(), Split(Dotted("llm", name)), default) == DefaultConfig().fields["llm"].fields[name]
  {
    DottedKeys("llm", name);
    var llm := DefaultConfig().fields["llm"];
    assert Lookup(DefaultConfig(), ["llm", name], default) == Lookup(llm, [name], default);
    assert [name][1..] == [];
    assert Lookup(llm, [name], default) == Lookup(llm.fields[name], [], default);
  }

  /** On a fresh install the client gets exactly its own fallbacks: "openai", no key, no endpoint base. */
  lemma DefaultSettings()
    ensures SettingsOf(DefaultConfig()) == Settings(JStr("openai"), JStr(""), JStr(""), JStr("gpt-4o-mini"), JNum(Float(7, -1)))
  {
    var llm := DefaultConfig().fields["llm"].fields;
    assert '.' !in "provider" && '.' !in "api_key" && '.' !in "base_url" && '.' !in "model" && '.' !in "temperature";
    DefaultLlmSetting("provider", JStr("openai"));
    DefaultLlmSetting("api_key", JStr(""));
    DefaultLlmSetting("base_url", JStr(""));
    DefaultLlmSetting("model", JStr("gpt-4o-mini"));
    DefaultLlmSetting("temperature", JNum(Float(7, -1)));
  }

  class LLMClient {
    const provider: Json
    const apiKey: Json
    const baseUrl: Json
    const model: Json
    const temperature: Json

    /** `__init__` (app.py:91-96); later changes to the settings do not reach these fields. */
    constructor (config: Config)
      ensures Fields() == SettingsOf(config.data)
    {
      provider := config.Get(Dotted("llm", "provider"), JStr("openai"));
      apiKey := config.Get(Dotted("llm", "api_key"), JStr(""));
      baseUrl := config.Get(Dotted("llm", "base_url"), JStr(""));
      model := config.Get(Dotted("llm", "model"), JStr("gpt-4o-mini"));
      temperature := config.Get(Dotted("llm", "temperature"), JNum(Float(7, -1)));
    }

    function Fields(): Settings
    {
      Settings(provider, apiKey, baseUrl, model, temperature)
    }
  }

  const MissingKeyReply: string := "❌ LLM API 키가 설정되지 않았습니다. 설정에서 API 키를 입력해주세요."
  const ErrorPrefix: string := "❌ LLM 오류: "

  /**
   * What the network gives back for one request: a decoded JSON body, or a
   * failure (connection error, timeout, non-2xx status, undecodable body)
   * with the text of the exception httpx raised.
   */
  datatype Outcome = Delivered(body: Json) | Failed(detail: string)

  /** The reply `chat` returns, and the requests it posted on the way. */
  datatype Exchange = Exchange(reply: Json, sent: seq<Request>)

  /** The guard of app.py:100: no truthy credential, and a provider other than "ollama". */
  predicate LacksKey(s: Settings) {
    !Truthy(s.apiKey) && s.provider != JStr("ollama")
  }

  /** The reply an adapter's result becomes in `chat` (app.py:103-113). */
  function ReplyOf(result: Result<Json>): Json
  {
    match result
    case Ok(v) => v
    case Err(e) => JStr(ErrorPrefix + e)
  }

  /**
   * `chat(message, context)` (app.py:98-113). `send` stands for the HTTP
   * round trip: it is consulted once, on the request the selected adapter
   * builds, unless the credential check answers first.
   */
  function Chat(s: Settings, message: string, context: string, send: Request -> Outcome): (x: Exchange)
    ensures LacksKey(s) <==> x.sent == []
    ensures LacksKey(s) ==> x.reply == JStr(MissingKeyReply)
    ensures !LacksKey(s) ==> x.sent == [BuildRequest(Route(s.provider), s, message, context)]
    ensures !LacksKey(s) ==>
      var a := Route(s.provider);
      var outcome := send(x.sent[0]);
      if outcome.Delivered? && ExtractReply(a, outcome.body).Ok?
      then x.reply == ExtractReply(a, outcome.body).value
      else x.reply.JStr? && |ErrorPrefix| <= |x.reply.s| && x.reply.s[..|ErrorPrefix|] == ErrorPrefix
  {
    if LacksKey(s) then Exchange(JStr(MissingKeyReply), [])
    else
      var a := Route(s.provider);
      var request := BuildRequest(a, s, message, context);
      var result :=
        match send(request)
        case Failed(detail) => Err(detail)
        case Delivered(body) => ExtractReply(a, body);
      Exchange(ReplyOf(result), [request])
  }

  /** The local provider needs no credential: it always sends exactly one request. */
  lemma OllamaAlwaysSends(s: Settings, message: string, context: string, send: Request -> Outcome)
    requires s.provider == JStr("ollama")
    ensures Chat(s, message, context, send).sent == [BuildRequest(Ollama, s, message, context)]
  {
  }

  /** A failed HTTP exchange is reported as the error prefix followed by the exception's text. */
  lemma TransportFailureReply(s: Settings, message: string, context: string, send: Request -> Outcome, detail: string)
    requires !LacksKey(s)
    requires send(BuildRequest(Route(s.provider), s, message, context)) == Failed(detail)
    ensures Chat(s, message, context, send).reply == JStr(ErrorPrefix + detail)
  {
  }

  /** The body of an OpenAI chat completion whose first choice says `content`. */
  function Completion(content: Json): Json
  {
    JObj(map["choices" := JArr([JObj(map["message" := JObj(map["content" := content])])])])
  }

  /** With a configured OpenAI client, a well-formed completion's content is the reply. */
  lemma {:induction false} OpenAICompletionReply(s: Settings, message: string, context: string, send: Request -> Outcome, content: Json)
    requires s.provider == JStr("openai") && Truthy(s.apiKey)
    requires send(BuildRequest(OpenAI, s, message, context)) == Delivered(Completion(content))
    ensures Chat(s, message, context, send).reply == content
  {
    var body := Completion(content);
    var choices := body.fields["choices"];
    var first := choices.items[0];
    var msg := first.fields["message"];
    assert Field(body, "choices", choices) && First(choices, first)
      && Field(first, "message", msg) && Field(msg, "content", content);
    OpenAIReplyPath(OpenAI, body, content);
  }

  /**
   * A configured client whose delivered body lacks the first key of its
   * adapter's reply path replies with the error prefix and that key's
   * `KeyError` text (`'choices'`, `'content'` or `'message'`).
   */
  lemma MissingFirstKeyReply(s: Settings, message: string, context: string, send: Request -> Outcome, body: Json)
    requires !LacksKey(s)
    requires send(BuildRequest(Route(s.provider), s, message, context)) == Delivered(body)
    requires body.JObj? && ReplyPath(Route(s.provider))[0].name !in body.fields
    ensures Chat(s, message, context, send).reply == JStr(ErrorPrefix + "'" + ReplyPath(Route(s.provider))[0].name + "'")
  {
    var a := Route(s.provider);
    DeliveredReply(s, message, context, send, body);
    MissingTopKey(a, body);
    var e := "'" + ReplyPath(a)[0].name + "'";
    assert ReplyOf(Err(e)) == JStr(ErrorPrefix + e);
    assert ErrorPrefix + e == ErrorPrefix + "'" + ReplyPath(a)[0].name + "'";
  }

  /** A delivered body is answered with what the adapter's extraction gives, or its error text. */
  lemma DeliveredReply(s: Settings, message: string, context: string, send: Request -> Outcome, body: Json)
    requires !LacksKey(s)
    requires send(BuildRequest(Route(s.provider), s, message, context)) == Delivered(body)
    ensures Chat(s, message, context, send).reply == ReplyOf(ExtractReply(Route(s.provider), body))
  {
  }
}
