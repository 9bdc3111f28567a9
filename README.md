# Shimplex core, modelled in Dafny

Shimplex is a small FastAPI service. It answers chat messages through one of
several hosted or local language-model providers, and it can add a text
summary of a rental-property database (Pinehill) to each question. This
project models the logic inside `app.py` and proves properties of it:

- `Config` (module `ConfigStore`, with the path logic in `DottedPaths`): the
  settings document, read and written by dotted path. `get` walks the path
  and falls back to a default. `set` creates the missing objects on the way,
  overwrites the leaf and saves the whole document. The document is a `Json`
  value, and the saved file is a ghost snapshot.
- `LLMClient` (modules `Providers` and `LlmClient`): five settings read once
  at construction. `chat` checks for a credential, dispatches on the provider
  name, builds the exact outbound request for each adapter and extracts the
  reply along the adapter's path. Any failure becomes the `❌ LLM 오류: `
  reply. The HTTP exchange is a function parameter `send`.
- `PinehillData.get_context_for_llm` and the result shaping of `get_summary`
  (module `PinehillContext`): the context text built by a loop over at most
  ten already-fetched unit rows.
- The handlers `get_config`, `update_config`, `health_check` and `api_chat`
  (module `Endpoints`), over one process-wide settings store and client.

Python's truthiness, `or`, `str()` inside f-strings, `str.split('.')` and
the `KeyError`/`IndexError`/`TypeError` texts of failed subscripts are
written out in `JsonValue` and `Providers`. `str()` is exact for strings,
`None`, booleans and integers. The `KeyError` text is exact for key names
of printable characters without quotes or backslashes. Where a setting reaches a header without an
f-string, a non-string value is still rendered as text (see "Left out").

`Config.data` is a `Json` value rather than a map. `json.load` may return a
list, a string or a number, and `get` and `set` then take their
default and failure paths. `set` raises a `TypeError` when a value on the
path is not an object. This can only happen before it has inserted anything,
so `Config.Set` reports it as `ok == false` with the document and file
unchanged. It does not require that the path is free of non-objects.

The start-up banner (app.py:529-532) tells the user to enter the API key in
the settings tab and then start chatting. The settings form
(static/js/app.js:224-245, 186-205) posts the key and then shows
`/api/health`, which reports it as configured. Both expect a saved key to
be used by the next chat. The code does not do that: the client is built once at start-up
(app.py:241), and `update_config` only writes the settings. The model follows
the code. The discrepancy is recorded under Findings, and the `App` state
uses the corrected behaviour.

## Model

| member | source | states |
|---|---|---|
| JsonValue.Truthy | app.py:100 | defines Python truth testing: `None`, `False`, zero, `""`, `[]` and `{}` are false; `Or`, `LlmClient.LacksKey` and `Endpoints.HealthCheck` are stated through it |
| JsonValue.Or | app.py:175-182 | Python's `a or b` is `a` when `a` is truthy and `b` otherwise; so it is one of its operands, and truthy exactly when either operand is |
| JsonValue.Text | app.py:117 | `str()` of a setting in an f-string: an integer becomes the canonical decimal text denoting it (no leading zero), a boolean "True" exactly when true, a string itself |
| JsonValue.IntText | app.py:332-336 | `str(i)` is the canonical decimal text denoting `i` (no leading zero, no signed zero), starts with a minus sign exactly when `i` is negative, and has no line break |
| JsonValue.NatText | app.py:332-336 | `str(n)` is a run of digits denoting `n`, with a leading zero only for zero itself, which is written "0" |
| DottedPaths.Split | app.py:61 | `path.split('.')` always yields at least one segment |
| DottedPaths.SplitSegments | app.py:61 | no segment of `split('.')` contains a dot |
| DottedPaths.JoinSplit | app.py:61 | joining the segments with '.' gives back the path: `split` loses nothing |
| DottedPaths.SplitJoin | app.py:61 | splitting the join of dot-free segments gives back the segments |
| DottedPaths.SplitNoDot | app.py:61 | a dot-free string is a single segment |
| DottedPaths.SplitDot | app.py:373 | splitting `a.b` gives the segments of `a` followed by the segments of `b` |
| DottedPaths.DottedKeys | app.py:92-96 | a name `section.key` of two dot-free parts is the two-key path |
| DottedPaths.Lookup | app.py:60-68 | defines `get`'s walk: step into the child at each key, give up with the default at a non-object or a missing key; its meaning is stated by `LookupIsAt` |
| DottedPaths.LookupIsAt | app.py:60-68 | `get` never fails: it returns the value at the full path when every step lands on an object holding the next key, and the default otherwise |
| DottedPaths.AtConcat | app.py:63-65 | reading a path in two steps is reading the concatenated path |
| DottedPaths.Put | app.py:70-77 | defines `set` on the document: create missing objects, overwrite the leaf, fail with `None` at a non-object; its properties are stated by `PutFailsIff`, `LookupAfterPut`, `LookupBelowPut`, `PutCreatesObjects` and `LookupBesidePut` |
| DottedPaths.PutStep | app.py:73-76 | one step of `set`'s walk through an object: it succeeds exactly when the walk from the existing child or a fresh `{}` succeeds, and then replaces that one key |
| DottedPaths.PutIntoEmpty | app.py:74-75 | writing below a freshly inserted `{}` always succeeds |
| DottedPaths.PutFailsIff | app.py:73-77 | `set` fails exactly when some strict prefix of the path holds a value that is not an object |
| DottedPaths.LookupAfterPut | app.py:70-78 | after `set(p, v)`, `get(p)` returns `v` |
| DottedPaths.LookupBelowPut | app.py:77 | after `set(p, v)`, an extension `p + rest` reads what `rest` reads inside `v` |
| DottedPaths.PutCreatesObjects | app.py:74-75 | after `set(p, v)`, every strict prefix of `p` is an object |
| DottedPaths.LookupBesidePut | app.py:70-78 | after `set(p, v)`, a path that is neither a prefix nor an extension of `p` reads as before |
| ConfigStore.DefaultConfig | app.py:41-58 | the default settings are an object with exactly the sections `llm`, `pinehill` and `app` |
| ConfigStore.Descend | app.py:72-76 | the loop over `keys[:-1]` visits the existing child or a fresh `{}` at each step, and finds the walk blocked exactly when `set` raises |
| ConfigStore.Rebuild | app.py:73-77 | the in-place insertions and the leaf assignment leave at the root exactly the document the path-update function gives |
| ConfigStore.Config.constructor | app.py:28-35 | the document is the file's content when the file exists, the default settings otherwise, and the file is not written |
| ConfigStore.Config.Save | app.py:37-39 | the file then holds the whole current document |
| ConfigStore.Config.Get | app.py:60-68 | the value at the full path if there is one, else the default |
| ConfigStore.Config.Set | app.py:70-78 | on success, the document is the path update of the old one and is saved; on a `TypeError`, the document and file are unchanged |
| Providers.Route | app.py:103-111 | dispatch is total: "openai", "anthropic" and "ollama" go to their own adapter and every other value to the OpenAI-compatible custom adapter |
| Providers.SystemPrompt | app.py:121-123 | the system prompt starts with the fixed base prompt, equals it exactly when the context is empty, and otherwise ends with the context heading followed by the context |
| Providers.PromptSentByEveryAdapter | app.py:231-239 | every adapter sends that system prompt: OpenAI, Ollama and custom as the first message, Anthropic in the `system` field |
| Providers.BuildRequest | app.py:115-226 | defines the request each adapter posts; its URLs, headers, bodies, timeouts and fallbacks are stated by `RequestShape` and `PromptSentByEveryAdapter` |
| Providers.RequestShape | app.py:115-226 | per adapter: the URL, the headers, the messages and the timeout; Ollama's base URL and model fall back to the local defaults; custom sends OpenAI's headers and body |
| Providers.Index | app.py:143 | a Python index names a position in range, counting from the end when negative |
| Providers.Subscript | app.py:143 | a Python subscript succeeds exactly on a key of an object or an in-range index (negative from the end) of a list or a string, and then yields that element; the body gives the exception text Python raises otherwise |
| Providers.FollowName | app.py:143 | following a key succeeds exactly when the value is an object holding it and the rest of the path succeeds from its value |
| Providers.FollowFirstName | app.py:143 | following `[0]` and then a key succeeds exactly when the value is a non-empty list whose first element holds the key |
| Providers.FollowLastName | app.py:198 | following a last key succeeds exactly when the value is an object holding it, and yields its value |
| Providers.FollowStep | app.py:143 | a chain of subscripts applies the first one, stops with its exception text if it raises, and otherwise goes on from its result |
| Providers.ReplyPath | app.py:143 | defines the subscript chain each adapter reads its reply from (app.py:143, 172, 198, 229); stated per adapter by the three reply-path lemmas |
| Providers.ExtractReply | app.py:143 | defines the reply extraction as following that chain; `OpenAIReplyPath`, `AnthropicReplyPath` and `OllamaReplyPath` say exactly when it succeeds and what it yields |
| Providers.OpenAIReplyPath | app.py:143 | the OpenAI and custom extraction succeeds exactly when `choices[0].message.content` exists, and then yields it |
| Providers.AnthropicReplyPath | app.py:172 | the Anthropic extraction succeeds exactly when `content[0].text` exists, and then yields it |
| Providers.OllamaReplyPath | app.py:198 | the Ollama extraction succeeds exactly when `message.content` exists, and then yields it |
| Providers.MissingTopKey | app.py:143 | a body without the first key of the reply path fails with the `KeyError` text of that key |
| LlmClient.SettingsOf | app.py:92-96 | defines the five settings `__init__` reads, each with its fallback; stated by `DefaultLlmSetting` and `DefaultSettings` |
| LlmClient.LacksKey | app.py:100 | defines the credential guard: no truthy key and a provider other than "ollama"; stated by `Chat`, `OllamaAlwaysSends` and `NoKeyNoRequest` |
| LlmClient.DefaultLlmSetting | app.py:92-96 | a setting of the default `llm` section reads its default value |
| LlmClient.DefaultSettings | app.py:41-49 | on a fresh install the client reads provider "openai", an empty key and an empty base URL |
| LlmClient.LLMClient.constructor | app.py:91-96 | the five fields are the settings read with their fallbacks at construction time |
| LlmClient.Chat | app.py:98-113 | without a truthy key and with a provider other than "ollama", the fixed notice and no request; otherwise exactly one request, to the routed adapter; the extracted reply on success, and a reply starting with the error prefix otherwise |
| LlmClient.OllamaAlwaysSends | app.py:100 | the "ollama" provider always sends its request, credential or not |
| LlmClient.TransportFailureReply | app.py:112-113 | a failed HTTP exchange replies with the error prefix followed by the exception text |
| LlmClient.DeliveredReply | app.py:103-113 | a delivered body is answered with the adapter's extraction, or with the error prefix and its error text |
| LlmClient.OpenAICompletionReply | app.py:143 | a configured OpenAI client replies with the content of a well-formed completion |
| LlmClient.MissingFirstKeyReply | app.py:112-113 | a configured client given a body without the first key of its reply path (`choices`, `content` or `message`) replies with the error prefix and that key's `KeyError` text |
| PinehillContext.OrZero | app.py:311-317 | `x or 0` on a column value turns NULL into 0 and keeps every integer |
| PinehillContext.ShapeSummary | app.py:308-321 | the summary keeps the month, is an error exactly when a query raised, carries the exception text then, and otherwise has every NULL total as 0 and every other total as fetched |
| PinehillContext.Listed | app.py:342 | `units[:10]` keeps the first `min(n, 10)` units, in order |
| PinehillContext.UnitLine | app.py:343 | defines one unit's line; `UnitLineCount` states it holds exactly one line break when its cells hold none |
| PinehillContext.Header | app.py:331-341 | defines the fixed header with the counts as decimal text; `ContextListsFirstTen` states the context starts with it |
| PinehillContext.Context | app.py:326-347 | the context is empty exactly when the summary is an error |
| PinehillContext.ContextForLlm | app.py:331-345 | the loop that appends one line per listed unit builds exactly the context text |
| PinehillContext.LinesAppend | app.py:342-343 | the lines of two lists of units are the lines of the first followed by the lines of the second |
| PinehillContext.UnitLinesInOrder | app.py:342-343 | the unit lines are the line of the first unit followed by the lines of the rest, in input order |
| PinehillContext.UnitLineCount | app.py:343 | a unit's line holds exactly one line break when its cells hold none |
| PinehillContext.UnitLinesCount | app.py:342-343 | the unit lines hold exactly one line break per unit when the cells hold none |
| PinehillContext.ContextListsFirstTen | app.py:342-345 | a context that does not fail ends with the lines of exactly the first ten units, or of all of them when there are fewer |
| Endpoints.SafeConfig | app.py:358-366 | the view has exactly the sections `llm` and `app`; `llm` holds exactly provider, model and base URL, each the setting at that path or `None`, and `app` is the `app` section or `None` |
| Endpoints.SafeConfigHidesKey | app.py:357-366 | the view holds no `api_key`, and writing `llm.api_key` does not change the view |
| Endpoints.SafeConfigReads | app.py:358-365 | the view depends only on the four settings it reads |
| Endpoints.LlmSibling | app.py:373 | writing one `llm.<key>` leaves every other `llm.<key>` as it reads |
| Endpoints.SectionBesideLlm | app.py:373 | writing one `llm.<key>` leaves every other top-level section as it reads |
| Endpoints.Items | app.py:372 | the items of `data['llm']` are its keys in iteration order, each with its value |
| Endpoints.UpdateConfig | app.py:368-374 | without `llm`, neither the document nor the file changes; a non-object `llm` raises with neither changed; otherwise the loop performs the writes in order and stops at the first that raises, and the file holds the resulting document exactly when the first write went through (it is unchanged otherwise) |
| Endpoints.ApplyAll | app.py:372-373 | defines the loop's effect on the document: one `set('llm.' + key, value)` per item in order, stopping at the first that raises; stated by `OnlyLlmSectionChanges`, `ApplyAllPreserves` and `UpdateWritesEachKey` |
| Endpoints.LlmWritePath | app.py:373 | every path `update_config` writes starts with the `llm` section |
| Endpoints.ApplyAllPreserves | app.py:372-373 | a path that diverges from every written `llm.<key>` path reads the same afterwards |
| Endpoints.OnlyLlmSectionChanges | app.py:371-373 | `update_config` leaves every top-level section other than `llm` as it reads |
| Endpoints.UpdateWritesEachKey | app.py:372-373 | when every write went through, each plain distinct key reads the value sent for it afterwards |
| Endpoints.KeyWriteGoesThrough | app.py:373 | writing `llm.api_key` succeeds whenever `llm` is an object |
| Endpoints.HealthCheck | app.py:412-420 | defines the health report: provider as read, `llm_configured` the truthiness of the key, `db_exists` from the database path; stated by `HealthAfterKeyWrite` and `HealthAgreesWithChat` |
| Endpoints.HealthAfterKeyWrite | app.py:418 | after `llm.api_key` is written, `health_check` reports a credential exactly when the written value is truthy |
| Endpoints.HealthAgreesWithChat | app.py:418 | for a client built from the current settings, `health_check` reports a credential exactly when `chat` sends a request (provider other than "ollama") |
| Endpoints.NoKeyNoRequest | app.py:100-101 | without a credential, `chat` answers with the fixed notice and sends nothing |
| Endpoints.FreshInstallLacksKey | app.py:41-58 | the default settings have an `llm` object and no credential |
| Endpoints.StaleClientAfterKeyUpdate | app.py:241 | with the client built before the settings change, `health_check` reports a key that `chat` does not use |
| Endpoints.App.constructor | app.py:80 | the settings are loaded from the file or the defaults, the file is left as it was, and the client is built from them |
| Endpoints.App.PostConfig | app.py:368-374 | the settings and the file change as `update_config` changes them, and the client is rebuilt from the new settings |
| Endpoints.App.ApiChat | app.py:398-410 | the response echoes the message, carries the `chat` reply for the client's settings (with the context when asked for; these are the current settings whenever `ClientCurrent` holds, as `App` keeps it) and the timestamp, and at most one request is sent |

## Left out

- HTTP transport (`httpx.AsyncClient`, `raise_for_status`, decoding the response body, real timeouts) is the function parameter `send`. Its failures are one `Failed(detail)` case whose text is whatever httpx raised.
- `async`/`await` is left out: each handler is modelled as running to completion on its own.
- Reading and writing `config.json` (`os.path.exists`, `open`, `json.load`, `json.dump`) is left out. The file's content at start-up is the constructor's `stored` parameter, and `save` is the ghost snapshot `persisted`.
- SQLite is left out: the queries of `get_units` and `get_summary`, `get_db`, `init_database` and its seed rows. The model starts from the fetched unit rows and the fetched summary row, or the exception text.
- `datetime.now()` is left out: the month inside the context and the `api_chat` timestamp are parameters.
- PinehillContext.Header: the `:,` thousands-separator formatting is the parameter `group` and is not modelled.
- JsonValue.Text: `str()` of floats, lists and objects is rendered as the empty string, so the model does not give their exact Python text. A setting written as a float, list or object (through `update_config` or the file) reaches the f-strings at app.py:117, 192, 203 and 222. The model then renders it as the empty string, where Python writes its `str()`.
- The temperature is a float passed through untouched. Numbers with a fraction are an opaque mantissa and exponent, and no arithmetic is done on them.
- Providers.BuildRequest: app.py:147 puts the raw `api_key` value in the Anthropic `x-api-key` header, with no f-string. The model renders it with `str()`, so a non-string key gives a request whose header cannot be told from the string key. httpx rejects such a header before sending, and `chat` then replies with the error prefix; the model leaves that outcome to `send`.
- Providers.Subscript: the `KeyError` text is the key in single quotes. That equals Python's `repr` only for keys of printable characters without quotes or backslashes: `repr` also escapes line breaks, tabs and other non-printable characters. The reply paths use none.
- PinehillContext.CellText: a SQLite cell is NULL, an integer or a text. REAL and BLOB cells are not modelled.
- Endpoints.UpdateConfig: the iteration order of `data['llm']` is the parameter `order`, because the model's objects are unordered maps.
- Endpoints.HealthCheck: `os.path.exists` is the parameter `pathExists`, so the `TypeError` it raises for a `None` path is not modelled.
- ConfigStore.Config.Set: the model does not show the in-place update or the sharing of nested objects. A value that the caller later mutates, after storing it with `set`, is not tracked.
- The handlers `index`, `api_units`, `api_unit`, `api_summary`, the FastAPI, Jinja and uvicorn wiring, and the start-up banner are framework plumbing with no logic of their own. The `__main__` block also saves the default settings when no settings file exists (app.py:515-517); `App.constructor` models import time (app.py:80, 241) only, so its "file left as it was" does not describe `python app.py` on a fresh install.
- `static/js/app.js` (browser DOM code) and `create_ppt.py` (calls into python-pptx) are not part of this model.

## Findings

| source | as written | input that shows it | evidently intended | confidence | as-written member | corrected member |
|---|---|---|---|---|---|---|
| app.py:241 | `llm_client` is built once at start-up, and `update_config` (app.py:368-374) writes only the settings | fresh install, then `POST /api/config` with `{"llm": {"api_key": "k"}}`, then `POST /api/chat`: `health_check` reports `llm_configured: true`, but the chat still answers "❌ LLM API 키가 설정되지 않았습니다. …" and sends nothing until the process restarts | the client is rebuilt from the settings after they change, so the saved key is used by the next chat | not executed | Endpoints.StaleClientAfterKeyUpdate | Endpoints.App.PostConfig |
