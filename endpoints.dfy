/**
 * The logic inside the HTTP handlers around the core: the sanitised settings
 * view of `get_config` (app.py:355-366), the `llm.*` writes of
 * `update_config` (app.py:368-374), `health_check` (app.py:412-420), and the
 * chat handler `api_chat` (app.py:398-410) over the process-wide settings
 * store and client (app.py:80, 241).
 */
module Endpoints {
  import opened Wrappers
  import opened JsonValue
  import opened DottedPaths
  import opened ConfigStore
  import opened Providers
  import opened LlmClient
  import opened PinehillContext

  /** `get_config`: provider, model and endpoint base of the `llm` section, and the whole `app` section. */
  function SafeConfig(data: Json): (r: Json)
    ensures r.JObj? && r.fields.Keys == {"llm", "app"}
    ensures r.fields["llm"].JObj? && r.fields["llm"].fields.Keys == {"provider", "model", "base_url"}
    ensures r.fields["llm"].fields["provider"] == At(data, ["llm", "provider"]).GetOr(JNull)
    ensures r.fields["llm"].fields["model"] == At(data, ["llm", "model"]).GetOr(JNull)
    ensures r.fields["llm"].fields["base_url"] == At(data, ["llm", "base_url"]).GetOr(JNull)
    ensures r.fields["app"] == At(data, ["app"]).GetOr(JNull)
  {
    PlainNames();
    DottedKeys("llm", "provider");
    DottedKeys("llm", "model");
    DottedKeys("llm", "base_url");
    SplitNoDot("app");
    LookupIsAt(data, ["llm", "provider"], JNull);
    LookupIsAt(data, ["llm", "model"], JNull);
    LookupIsAt(data, ["llm", "base_url"], JNull);
    LookupIsAt(data, ["app"], JNull);
    JObj(map[
      "llm" := JObj(map[
        "provider" := Lookup(data, Split(Dotted("llm", "provider")), JNull),
        "model" := Lookup(data, Split(Dotted("llm", "model")), JNull),
        "base_url" := Lookup(data, Split(Dotted("llm", "base_url")), JNull)]),
      "app" := Lookup(data, Split("app"), JNull)])
  }

  /** Writing one `llm.<key>` leaves every other `llm.<key>` as it reads. */
  lemma LlmSibling(data: Json, a: string, v: Json, b: string, default: Json)
    requires '.' !in a && '.' !in b && a != b && Put(data, Split(Dotted("llm", a)), v).Some?
    ensures Lookup(Put(data, Split(Dotted("llm", a)), v).value, Split(Dotted("llm", b)), default)
      == Lookup(data, Split(Dotted("llm", b)), default)
  {
    DottedKeys("llm", a);
    DottedKeys("llm", b);
    assert Split(Dotted("llm", a))[1] != Split(Dotted("llm", b))[1];
    LookupBesidePut(data, Split(Dotted("llm", a)), v, Split(Dotted("llm", b)), default);
  }

  /** Writing one `llm.<key>` leaves every other top-level section as it reads. */
  lemma SectionBesideLlm(data: Json, a: string, v: Json, section: string, default: Json)
    requires '.' !in section && section != "llm" && Put(data, Split(Dotted("llm", a)), v).Some?
    ensures Lookup(Put(data, Split(Dotted("llm", a)), v).value, Split(section), default)
      == Lookup(data, Split(section), default)
  {
    LlmWritePath(a);
    SplitNoDot(section);
    assert Split(Dotted("llm", a))[0] != Split(section)[0];
    LookupBesidePut(data, Split(Dotted("llm", a)), v, Split(section), default);
  }

  /**
   * The credential never shows in `get_config`: the view has no `api_key`
   * entry under `llm`, and writing `llm.api_key` leaves the view unchanged.
   */
  lemma SafeConfigHidesKey(data: Json, key: Json)
    requires Put(data, Split(Dotted("llm", "api_key")), key).Some?
    ensures "api_key" !in SafeConfig(data).fields["llm"].fields
    ensures SafeConfig(Put(data, Split(Dotted("llm", "api_key")), key).value) == SafeConfig(data)
  {
    var after := Put(data, Split(Dotted("llm", "api_key")), key).value;
    PlainNames();
    LlmSibling(data, "api_key", key, "provider", JNull);
    LlmSibling(data, "api_key", key, "model", JNull);
    LlmSibling(data, "api_key", key, "base_url", JNull);
    SectionBesideLlm(data, "api_key", key, "app", JNull);
    SafeConfigReads(after, data);
  }

  /** The setting names the handlers use hold no '.'. */
  lemma PlainNames()
    ensures '.' !in "api_key" && '.' !in "provider" && '.' !in "model" && '.' !in "base_url" && '.' !in "app"
  {
  }

  /** `get_config` reads four settings and nothing else. */
  lemma SafeConfigReads(d1: Json, d2: Json)
    requires Lookup(d1, Split(Dotted("llm", "provider")), JNull) == Lookup(d2, Split(Dotted("llm", "provider")), JNull)
    requires Lookup(d1, Split(Dotted("llm", "model")), JNull) == Lookup(d2, Split(Dotted("llm", "model")), JNull)
    requires Lookup(d1, Split(Dotted("llm", "base_url")), JNull) == Lookup(d2, Split(Dotted("llm", "base_url")), JNull)
    requires Lookup(d1, Split("app"), JNull) == Lookup(d2, Split("app"), JNull)
    ensures SafeConfig(d1) == SafeConfig(d2)
  {
  }

  /** The `(key, value)` pairs of a dict in the order `order` lists its keys (its `.items()`). */
  function Items(fields: map<string, Json>, order: seq<string>): (items: seq<(string, Json)>)
    requires forall k :: k in order ==> k in fields
    ensures |items| == |order|
    ensures forall i :: 0 <= i < |order| ==> items[i] == (order[i], fields[order[i]])
  {
    if order == [] then [] else [(order[0], fields[order[0]])] + Items(fields, order[1..])
  }

  /**
   * The effect of the loop of `update_config` (app.py:372-373) on the settings
   * document: `set('llm.' + key, value)` per item in order, stopping at the
   * first that raises. The flag tells whether every write went through.
   */
  function ApplyAll(root: Json, items: seq<(string, Json)>): (Json, bool)
    decreases |items|
  {
    if items == [] then (root, true)
    else
      match Put(root, Split(Dotted("llm", items[0].0)), items[0].1)
      case None => (root, false)
      case Some(next) => ApplyAll(next, items[1..])
  }

  /**
   * The first `set` of the loop goes through, so `save` has run and the file
   * holds the document from then on: every later `set` either saves again or
   * raises without changing anything.
   */
  predicate FirstWriteSaves(root: Json, items: seq<(string, Json)>) {
    items != [] && Put(root, Split(Dotted("llm", items[0].0)), items[0].1).Some?
  }

  /**
   * `update_config(data)` (app.py:368-374). `order` is the iteration order of
   * `data['llm']`. `ok` is false where the handler raises: `data['llm']` has
   * no `.items()` (it is not an object), or a `set` raises; the writes before
   * that one stay applied and saved.
   */
  method UpdateConfig(config: Config, data: map<string, Json>, order: seq<string>) returns (ok: bool)
    requires "llm" in data && data["llm"].JObj? ==> forall k :: k in order <==> k in data["llm"].fields
    requires forall i, j :: 0 <= i < j < |order| ==> order[i] != order[j]
    modifies config
    ensures "llm" !in data ==> ok && config.data == old(config.data) && config.persisted == old(config.persisted)
    ensures "llm" in data && !data["llm"].JObj? ==>
      !ok && config.data == old(config.data) && config.persisted == old(config.persisted)
    ensures "llm" in data && data["llm"].JObj? ==>
      (config.data, ok) == ApplyAll(old(config.data), Items(data["llm"].fields, order))
    ensures "llm" in data && data["llm"].JObj? ==>
      if FirstWriteSaves(old(config.data), Items(data["llm"].fields, order))
      then config.persisted == Some(config.data)
      else config.persisted == old(config.persisted)
  {
    if "llm" !in data {
      return true;
    }
    var llm := data["llm"];
    if !llm.JObj? {
      return false;
    }
    var items := Items(llm.fields, order);
    var i := 0;
    while i < |items|
      invariant 0 <= i <= |items|
      invariant ApplyAll(old(config.data), items) == ApplyAll(config.data, items[i..])
      invariant i == 0 ==> config.data == old(config.data) && config.persisted == old(config.persisted)
      invariant i > 0 ==> FirstWriteSaves(old(config.data), items) && config.persisted == Some(config.data)
    {
      assert items[i..][0] == items[i] && items[i..][1..] == items[i + 1..];
      var written := config.Set(Dotted("llm", items[i].0), items[i].1);
      if !written {
        return false;
      }
      i := i + 1;
    }
    ok := true;
  }

  /** A path `llm.<key>` starts at the `llm` section and goes at least one level below it. */
  lemma LlmWritePath(key: string)
    ensures Split(Dotted("llm", key)) == ["llm"] + Split(key)
  {
    SplitDot("llm", key);
    SplitNoDot("llm");
  }

  /** Every path that diverges from each written `llm.<key>` path reads the same after `update_config`. */
  lemma {:induction false} ApplyAllPreserves(root: Json, items: seq<(string, Json)>, q: seq<string>, default: Json)
    requires forall i :: 0 <= i < |items| ==> Diverge(Split(Dotted("llm", items[i].0)), q)
    ensures Lookup(ApplyAll(root, items).0, q, default) == Lookup(root, q, default)
    decreases |items|
  {
    if items != [] {
      var keys := Split(Dotted("llm", items[0].0));
      var next := Put(root, keys, items[0].1);
      if next.Some? {
        assert Diverge(keys, q);
        LookupBesidePut(root, keys, items[0].1, q, default);
        forall i | 0 <= i < |items[1..]|
          ensures Diverge(Split(Dotted("llm", items[1..][i].0)), q)
        {
          assert items[1..][i] == items[i + 1];
        }
        ApplyAllPreserves(next.value, items[1..], q, default);
      }
    }
  }

  /** `update_config` never touches a top-level section other than `llm`. */
  lemma OnlyLlmSectionChanges(root: Json, items: seq<(string, Json)>, q: seq<string>, default: Json)
    requires q != [] && q[0] != "llm"
    ensures Lookup(ApplyAll(root, items).0, q, default) == Lookup(root, q, default)
  {
    forall i | 0 <= i < |items|
      ensures Diverge(Split(Dotted("llm", items[i].0)), q)
    {
      LlmWritePath(items[i].0);
      assert Split(Dotted("llm", items[i].0))[0] == "llm";
    }
    ApplyAllPreserves(root, items, q, default);
  }

  /** Distinct keys without '.', as the settings form sends them. */
  predicate PlainDistinctKeys(items: seq<(string, Json)>) {
    && (forall i :: 0 <= i < |items| ==> '.' !in items[i].0)
    && (forall i, j :: 0 <= i < j < |items| ==> items[i].0 != items[j].0)
  }

  /**
   * When every write of `update_config` went through and the keys are plain
   * and distinct, each `llm.<key>` afterwards reads the value sent for it.
   */
  lemma {:induction false} UpdateWritesEachKey(root: Json, items: seq<(string, Json)>, i: nat, default: Json)
    requires ApplyAll(root, items).1 && PlainDistinctKeys(items) && i < |items|
    ensures Lookup(ApplyAll(root, items).0, ["llm", items[i].0], default) == items[i].1
    decreases |items|
  {
    var keys := Split(Dotted("llm", items[0].0));
    DottedKeys("llm", items[0].0);
    var next := Put(root, keys, items[0].1).value;
    assert PlainDistinctKeys(items[1..]) by {
      forall a | 0 <= a < |items[1..]| ensures items[1..][a] == items[a + 1] { }
    }
    if i == 0 {
      LookupAfterPut(root, keys, items[0].1, default);
      forall j | 0 <= j < |items[1..]|
        ensures Diverge(Split(Dotted("llm", items[1..][j].0)), keys)
      {
        assert items[1..][j] == items[j + 1];
        DottedKeys("llm", items[j + 1].0);
        assert Split(Dotted("llm", items[j + 1].0))[1] != keys[1];
      }
      ApplyAllPreserves(next, items[1..], keys, default);
    } else {
      assert items[1..][i - 1] == items[i];
      UpdateWritesEachKey(next, items[1..], i - 1, default);
    }
  }

  /**
   * `health_check` (app.py:412-420). `pathExists` stands for `os.path.exists`,
   * asked about the configured database path.
   */
  function HealthCheck(data: Json, pathExists: Json -> bool): Json
  {
    JObj(map[
      "status" := JStr("ok"),
      "llm_provider" := Lookup(data, Split(Dotted("llm", "provider")), JNull),
      "llm_configured" := JBool(Truthy(Lookup(data, Split(Dotted("llm", "api_key")), JNull))),
      "db_exists" := JBool(pathExists(Lookup(data, Split(Dotted("pinehill", "db_path")), JStr("pinehill.db"))))])
  }

  /**
   * For a client built from the current settings, `health_check` reports a
   * credential exactly when `chat` would get past its credential check (for
   * every provider but "ollama", which needs none): the two defaults, None and
   * "", are both false.
   */
  lemma HealthAgreesWithChat(data: Json, pathExists: Json -> bool, message: string, context: string, send: Request -> Outcome)
    requires SettingsOf(data).provider != JStr("ollama")
    ensures HealthCheck(data, pathExists).fields["llm_configured"]
      == JBool(Chat(SettingsOf(data), message, context, send).sent != [])
  {
    var keys := Split(Dotted("llm", "api_key"));
    LookupIsAt(data, keys, JNull);
    LookupIsAt(data, keys, JStr(""));
  }

  /**
   * As written, the client is built once at start-up and `update_config` only
   * writes the settings: once a credential is entered into settings that had
   * none, `health_check` reports it configured while `chat` of the client
   * built before still answers that no key is set, and sends nothing.
   */
  lemma StaleClientAfterKeyUpdate(before: Json, key: string, message: string, context: string,
                                  send: Request -> Outcome, pathExists: Json -> bool)
    requires before.JObj? && "llm" in before.fields && before.fields["llm"].JObj?
    requires LacksKey(SettingsOf(before)) && key != ""
    ensures ApplyAll(before, [("api_key", JStr(key))]).1
    ensures HealthCheck(ApplyAll(before, [("api_key", JStr(key))]).0, pathExists).fields["llm_configured"] == JBool(true)
    ensures Chat(SettingsOf(before), message, context, send) == Exchange(JStr(MissingKeyReply), [])
  {
    KeyWriteGoesThrough(before, JStr(key));
    HealthAfterKeyWrite(before, JStr(key), pathExists);
    NoKeyNoRequest(SettingsOf(before), message, context, send);
  }

  /** `update_config` with the single item `api_key` goes through whenever `llm` is an object. */
  lemma KeyWriteGoesThrough(before: Json, key: Json)
    requires before.JObj? && "llm" in before.fields && before.fields["llm"].JObj?
    ensures Put(before, Split(Dotted("llm", "api_key")), key).Some?
    ensures ApplyAll(before, [("api_key", key)]) == (Put(before, Split(Dotted("llm", "api_key")), key).value, true)
  {
    DottedKeys("llm", "api_key");
  }

  /** Without a credential (and not on "ollama"), `chat` answers with the fixed notice and sends nothing. */
  lemma NoKeyNoRequest(s: Settings, message: string, context: string, send: Request -> Outcome)
    requires LacksKey(s)
    ensures Chat(s, message, context, send) == Exchange(JStr(MissingKeyReply), [])
  {
  }

  /** A fresh install is such a document: an `llm` object, provider "openai" and an empty key. */
  lemma FreshInstallLacksKey()
    ensures DefaultConfig().fields["llm"].JObj?
    ensures LacksKey(SettingsOf(DefaultConfig()))
  {
    DefaultSettings();
  }

  /** Once a credential is written, `health_check` reports it as configured exactly when it is truthy. */
  lemma HealthAfterKeyWrite(data: Json, key: Json, pathExists: Json -> bool)
    requires Put(data, Split(Dotted("llm", "api_key")), key).Some?
    ensures HealthCheck(Put(data, Split(Dotted("llm", "api_key")), key).value, pathExists).fields["llm_configured"]
      == JBool(Truthy(key))
  {
    LookupAfterPut(data, Split(Dotted("llm", "api_key")), key, JNull);
  }

  /**
   * The process-wide state: the settings store and the chat client. The
   * client is kept in step with the settings, which the source does not do
   * (see `StaleClientAfterKeyUpdate`).
   */
  class App {
    const config: Config
    var client: LLMClient

    ghost predicate ClientCurrent()
      reads this, config
    {
      client.Fields() == SettingsOf(config.data)
    }

    /** Start-up (app.py:80, 241): load the settings, then build the client from them. */
    constructor (stored: Option<Json>)
      ensures ClientCurrent() && fresh(config)
      ensures config.data == (if stored.Some? then stored.value else DefaultConfig())
      ensures config.persisted == stored
    {
      var c := new Config(stored);
      config := c;
      client := new LLMClient(c);
    }

    /** `update_config`, followed by rebuilding the client from the updated settings. */
    method PostConfig(data: map<string, Json>, order: seq<string>) returns (ok: bool)
      requires "llm" in data && data["llm"].JObj? ==> forall k :: k in order <==> k in data["llm"].fields
      requires forall i, j :: 0 <= i < j < |order| ==> order[i] != order[j]
      modifies this, config
      ensures ClientCurrent()
      ensures "llm" !in data ==> ok && config.data == old(config.data) && config.persisted == old(config.persisted)
      ensures "llm" in data && !data["llm"].JObj? ==>
        !ok && config.data == old(config.data) && config.persisted == old(config.persisted)
      ensures "llm" in data && data["llm"].JObj? ==>
        (config.data, ok) == ApplyAll(old(config.data), Items(data["llm"].fields, order))
      ensures "llm" in data && data["llm"].JObj? ==>
        if FirstWriteSaves(old(config.data), Items(data["llm"].fields, order))
        then config.persisted == Some(config.data)
        else config.persisted == old(config.persisted)
    {
      ok := UpdateConfig(config, data, order);
      client := new LLMClient(config);
    }

    /**
     * `api_chat` (app.py:398-410): with `use_context`, the context text built
     * from the fetched units and summary; then one `chat` call. The clock's
     * reading is `timestamp`.
     */
    method ApiChat(message: string, useContext: bool, units: seq<Unit>, month: string, summary: Summary,
                   group: int -> string, send: Request -> Outcome, timestamp: string)
      returns (response: Json, sent: seq<Request>)
      ensures var context := if useContext then Context(units, month, summary, group) else "";
        var x := Chat(client.Fields(), message, context, send);
        && response == JObj(map["message" := JStr(message), "response" := x.reply, "timestamp" := JStr(timestamp)])
        && sent == x.sent && |sent| <= 1
    {
      var context := "";
      if useContext {
        context := ContextForLlm(units, month, summary, group);
      }
      var x := Chat(client.Fields(), message, context, send);
      response := JObj(map["message" := JStr(message), "response" := x.reply, "timestamp" := JStr(timestamp)]);
      sent := x.sent;
    }
  }
}
