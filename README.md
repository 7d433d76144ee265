# dify-chat request layer and session store, in Dafny

This project models the core of the dify-chat browser client. The core has three parts:

- **URL templates and the request factory.** `transformUrl` fills `/:name` placeholders from a config. `createRequest` builds a request function that remembers its url, its base config or method, and its latest `AbortController`.
- **The shared HTTP client's two interceptors.** The outbound one adds the bearer credential and the `user`. The inbound one unwraps the response body or picks the error message.
- **The chat service and the session store.** The service defines the conversation and message endpoints. The store holds the session list, the selected conversation, its message log and loading flag, and the chat's cancellation handle.

Files:

- `jsvalue.dfy` (`JsValues`): the JavaScript values the layer passes around, with object spread, truthiness, `String(v)` and `typeof v === 'object'`.
- `url_template.dfy` (`UrlTemplate`): the placeholder regex `/\/:([a-z_][\w-]*)/gi` as a scanner, and `String.prototype.replace` with a string pattern, including its `$` patterns. It also has the `forEach` fold with its loop (`TransformUrl`), and a one-pass reference substitution (`Substitute`). The main theorem says when the two coincide.
- `http.dfy` (`Http`):
  - `RequestFactory`, a class holding the three closure variables of `createRequest`;
  - `Outgoing`, the call one invocation hands to the client;
  - the interceptors: `Intercept` edits a config object in place, as specified by `OutboundRule`; `ErrorMessage` and `InboundRule` cover the response side.
- `chat.dfy` (`Chat`): `Session`, `Message`, the three factories, the three direct endpoints, and the feedback-path finding.
- `session.dfy` (`SessionStore`): the `Store` class. `updateMessages` is split into the event that issues the fetch and the event that settles it. Each call's outcome is a parameter.

Three behaviours of the code are easy to misread. The model follows what the code does:

- The outbound interceptor **overwrites** a caller-supplied `user`. It does not keep it.
- The bearer credential comes from the build-time key `VITE_CHAT_API_KEY`, not from the store's `apiKey`. When that key is not configured, the header reads `Bearer undefined`.
- Placeholders are resolved only from the per-call config. They are never resolved from the payload or the base config.

## Model

| member | source | states |
|---|---|---|
| `UrlTemplate.NameRun` | src/shared/http/index.ts:136 | the placeholder name is the longest run of word or hyphen characters |
| `UrlTemplate.MatchLength` | src/shared/http/index.ts:136 | a match is `/:`, a name start, and the rest of the name, inside the url |
| `UrlTemplate.Matches` | src/shared/http/index.ts:136 | every matched text is `/:` followed by a name |
| `UrlTemplate.NoMatchIff` | src/shared/http/index.ts:136 | the regex finds nothing exactly when no `/:` is followed by a letter or `_` |
| `UrlTemplate.IndexOf` | src/shared/http/index.ts:140 | `replace` with a string pattern acts at the first occurrence, and only there |
| `UrlTemplate.ExpandLiteral` | src/shared/http/index.ts:140 | a replacement without `$` is inserted literally |
| `UrlTemplate.ReplaceFirstAt` | src/shared/http/index.ts:140 | `replace` splices the replacement in at the first occurrence and keeps the rest |
| `UrlTemplate.Expand` | src/shared/http/index.ts:140 | definition: the text `replace` inserts for a string replacement, with `$$`, `$&`, `` $` `` and `$'` expanded and any other `$` kept |
| `UrlTemplate.ReplaceFirst` | src/shared/http/index.ts:140 | definition: `url.replace(r, repl)` with a string pattern, rewriting the first occurrence only, or nothing when there is none |
| `UrlTemplate.Lookup` | src/shared/http/index.ts:140 | definition: `config?.[key] ?? ''` as text, with `''` for a missing, null or undefined value |
| `UrlTemplate.Replacement` | src/shared/http/index.ts:139-140 | definition: `` `/${config?.[key] ?? ''}` `` with the key `r.slice(2)` |
| `UrlTemplate.ReplaceEach` | src/shared/http/index.ts:138-141 | definition: the `forEach` over the matched texts, each replacing its first occurrence in the url as rewritten so far |
| `UrlTemplate.Substitute` | src/shared/http/index.ts:134-144 | definition: the independent one-pass reference, which writes each placeholder's value where it stands and copies every other character |
| `UrlTemplate.Resolve` | src/shared/http/index.ts:136-143 | a url with no placeholder match comes back unchanged |
| `UrlTemplate.TransformUrl` | src/shared/http/index.ts:134-144 | the loop that reassigns `url` once per match returns the fold of first-occurrence replacements |
| `UrlTemplate.LookupClean` | src/shared/http/index.ts:140 | when every configured value is clean, the value used for any key is clean, including `''` for a missing, null or undefined key |
| `UrlTemplate.CleanForIff` | src/shared/http/index.ts:136-140 | the cleanliness condition of a url looks only at the values for the keys its matched placeholders name, and at every one of them |
| `UrlTemplate.CleanConfigCleanFor` | src/shared/http/index.ts:136-140 | a config whose values are all clean meets that condition for every url |
| `UrlTemplate.ResolveSubstitutes` | src/shared/http/index.ts:135-141 | two conditions: the value substituted for each placeholder of the url holds no `/`, `:` or `$` (other config fields are free), and no placeholder is directly followed by `:`. Then each `/:name` becomes `/` plus the value of name (`''` if missing, null or undefined), exactly as the one-pass scan writes it, and no placeholder match remains |
| `UrlTemplate.ResolveOnce` | src/shared/http/index.ts:138-141 | under the same conditions, resolving a resolved url again, against any config, changes nothing |
| `UrlTemplate.ColonsOutsidePlaceholdersUntouched` | src/shared/http/index.ts:135-141 | a url whose colons are never a `/` followed by a name start (ports, `a:b`) resolves to itself |
| `UrlTemplate.QuietPrefix` | src/shared/http/index.ts:136 | text in which no placeholder starts adds no match in front of the rest |
| `UrlTemplate.ResolveAfterQuietPrefix` | src/shared/http/index.ts:135-141 | such leading text, colons included, is kept as it is, and the rest of the url resolves as the one-pass scan writes it |
| `UrlTemplate.QuietWhenNoSlashColon` | src/shared/http/index.ts:136 | text with no `/` directly before a `:` starts no placeholder in front of anything not starting with `:` |
| `UrlTemplate.PortsKept` | src/shared/http/index.ts:135-141 | in `http://h:8080/:id`, the scheme and port colons survive while the placeholder is filled with its value |
| `UrlTemplate.HostAndPort` | src/shared/http/index.ts:136 | `http://h:8080` has no `/` directly before a `:` |
| `UrlTemplate.OnePlaceholder` | src/shared/http/index.ts:136-140 | a template with one placeholder between colon-free texts matches just that placeholder and substitutes its value there |
| `UrlTemplate.OnePlaceholderResolves` | src/shared/http/index.ts:136-141 | when the value of its one key is clean (other fields are free), the fold over such a template gives the one-pass substitution, and leaves no placeholder |
| `UrlTemplate.ResolveKeepsPrefix` | src/shared/http/index.ts:138-141 | a leading segment like `/chat` survives resolution against any config |
| `Http.BaseRecord` | src/shared/http/index.ts:87-91 | definition: a string `configOrMethod` becomes `{ method }`, a config is kept |
| `Http.Outgoing` | src/shared/http/index.ts:95-125 | definition: `finalConfig` is `{signal, ...base, ...config}`; a base method exactly `'GET'` gives `http.get(url, finalConfig)` with merged params, and any other method gives `http.request({...finalConfig, method, data, url})` |
| `Http.RequestFactory.constructor` | src/shared/http/index.ts:80-84 | a factory starts with the template url, its base, and no controller |
| `Http.RequestFactory.Request` | src/shared/http/index.ts:86-126 | each call normalises a string base to `{method}` and allocates a fresh controller. It overwrites the stored url with its resolution against the per-call config, and returns `Outgoing` for that url and signal |
| `Http.RequestFactory.Abort` | src/shared/http/index.ts:129 | `abort(reason)` aborts the latest controller only, and changes nothing else |
| `Http.AbortLatest` | src/shared/http/index.ts:129 | only the most recent controller changes. It is a no-op before the first call, and an aborted controller keeps its first reason |
| `Http.RequestFactory.RequestKeepingTemplate` | src/shared/http/index.ts:102 | corrected `request`: the stored url stays the template, and each call resolves it afresh |
| `Http.GetMergesParams` | src/shared/http/index.ts:104-110 | with base method exactly `'GET'`, sent params = base params overlaid by the payload (payload wins), key by key |
| `Http.GetIgnoresCallParams` | src/shared/http/index.ts:95-110 | with base method `'GET'`, the per-call config's `params` never changes the call |
| `Http.OtherMethodsSendBody` | src/shared/http/index.ts:113-125 | for any other method the body is base data overlaid by the payload when base data is an object (null included), else the payload. Method, data and url cannot be overridden by the per-call config. Every other field comes from the per-call config, then the base, then the signal |
| `Http.FactoryCallTarget` | src/shared/http/index.ts:101-125 | a factory call goes to the resolved url. Its method depends on the base alone, and it is a GET exactly when the base method is `'GET'` |
| `Http.Dispatch` | src/shared/http/index.ts:110-125 | definition, and an assumption about the client: the config its request interceptors receive for `http.get`, `http.post`, `http.delete` and `http.request`, with the method lower-cased and `get` by default |
| `Http.BearerValue` | src/shared/http/index.ts:19-22 | definition: `` `Bearer ${VITE_CHAT_API_KEY}` ``, reading `Bearer undefined` without a key |
| `Http.IsGetMethod` | src/shared/http/index.ts:24-27 | definition: `config.method?.toLocaleUpperCase() === 'GET'` |
| `Http.OutboundRule` | src/shared/http/index.ts:17-41 | definition: the request interceptor on a config value; under `/chat` it sets the header, then `user` into params for GET and into data otherwise |
| `Http.AxiosConfig.Snapshot` | src/shared/http/index.ts:17-41 | definition: the fields of the config object the interceptor edits in place, as one value |
| `Http.Intercept` | src/shared/http/index.ts:16-42 | the request interceptor edits the config object in place into `OutboundRule` of its old contents |
| `Http.OutboundInjects` | src/shared/http/index.ts:18-41 | under the `/chat` prefix (so `/chatx` too) it sets `Authorization: Bearer <key>`. `user` goes into the params when the upper-cased method is `GET`, into the body otherwise, and every other field is kept. Other urls pass through unchanged |
| `Http.OutboundBody` | src/shared/http/index.ts:18-38 | a non-GET call under `/chat` leaves with the bearer header added and `user` set in its body, and nothing else changed |
| `Http.OutboundQuery` | src/shared/http/index.ts:18-32 | a `get` call under `/chat` leaves with the bearer header added and `user` set in its query, and nothing else changed |
| `Http.CallerUserOverwritten` | src/shared/http/index.ts:27-38 | a caller-supplied `user` is replaced by the store's |
| `Http.IsGetMethodIff` | src/shared/http/index.ts:27 | the upper-cased method test accepts exactly `get` in any letter case |
| `Http.IsGetMethodExamples` | src/shared/http/index.ts:27 | `get`, `Get` and `GET` take the query branch; `post` and `gets` do not |
| `JsValues.UpperOfLower` | src/shared/http/index.ts:27 | upper-casing a lower-cased method gives the same text as upper-casing the original |
| `Http.DispatchLowersMethod` | src/shared/http/index.ts:113-125 | a factory call's method reaches the interceptors in lower case |
| `Http.ErrorMessage` | src/shared/http/index.ts:57-68 | the chosen error text is never empty or falsy |
| `Http.ErrorMessageChoice` | src/shared/http/index.ts:57-67 | `ECONNABORTED` gives `请求超时` and `ERR_NETWORK` gives `网络错误`. With any other code it is the server's `message`, else its `msg`, else `系统错误` |
| `Http.InboundRule` | src/shared/http/index.ts:52-75 | success resolves to `response.data` alone with no notice. Failure rejects with the same error and shows exactly the text `ErrorMessage` chooses, which is never falsy |
| `Chat.NewFetchConversations` | src/service/chat.ts:46-78 | `fetchConversations` is a default-method (GET) factory on `/chat/conversations` |
| `Chat.NewFetchMessages` | src/service/chat.ts:113-137 | `fetchMessages` is a GET factory on `/chat/messages` |
| `Chat.NewFeedbackMessage` | src/service/chat.ts:142-154 | `feedbackMessage` is a `POST` factory on the template `/chat/messages/:message_id/feedbacks` |
| `Chat.RenameConversation` | src/service/chat.ts:83-86 | definition: `http.post(`/chat/conversations/${id}/name`, {name})` |
| `Chat.DeleteConversation` | src/service/chat.ts:91 | definition: `http.delete(`/chat/conversations/${id}`)` |
| `Chat.FetchSuggestions` | src/service/chat.ts:159-164 | definition: `http.get(`/chat/messages/${id}/suggested`)` |
| `Chat.Between` | src/service/chat.ts:84 | the id read back from a url sits between the endpoint's prefix and suffix |
| `Chat.BetweenRoundTrip` | src/service/chat.ts:84 | an id put into a url between a prefix and a suffix reads back unchanged |
| `Chat.EndpointIds` | src/service/chat.ts:83-164 | the rename, delete, suggestion and feedback urls are the prefix, then the id, then the suffix, and the id reads back from each |
| `Chat.FeedbackPathInjective` | src/service/chat.ts:152 | different message ids give different feedback paths |
| `Chat.FeedbackTemplateResolves` | src/service/chat.ts:151-154 | when the `message_id` value is clean, whatever else the config holds, the template resolves to that message's path and leaves nothing to resolve |
| `Chat.FeedbackIgnoresOtherFields` | src/service/chat.ts:151-154 | a per-call config that also carries a `baseURL` such as `https://api` still resolves the template to the path of its `message_id` |
| `Chat.FixedPathResolves` | src/service/chat.ts:78 | a factory path with no colon is never rewritten |
| `Chat.StartsWithExtend` | src/service/chat.ts:84 | a url built by appending to a `/chat` path is still under `/chat` |
| `Chat.RenameCarriesUser` | src/service/chat.ts:83-86 | `renameConversation` leaves the outbound stage with the bearer header and the body `{name, user}` |
| `Chat.DeleteCarriesUser` | src/service/chat.ts:91 | `deleteConversation` leaves the outbound stage with the bearer header and the body `{user}` |
| `Chat.SuggestionsCarryUser` | src/service/chat.ts:159-164 | `fetchSuggestions` leaves the outbound stage with the bearer header and the query `{user}` |
| `Chat.UnderApi` | src/shared/http/index.ts:18 | a url built by appending to a `/chat` path is matched by the interceptor's prefix test |
| `Chat.ApiPrefixSafe` | src/shared/http/index.ts:18 | the prefix `/chat` is a plain leading segment |
| `Chat.ConversationsPathFixed` | src/service/chat.ts:78 | the conversations path is under `/chat` and no per-call config rewrites it |
| `Chat.MessagesPathFixed` | src/service/chat.ts:137 | the messages path is under `/chat` and no per-call config rewrites it |
| `Chat.FeedbackTemplateShape` | src/service/chat.ts:152 | the feedback template is the messages path, one `/:message_id` placeholder and `/feedbacks`, with no other colon |
| `Chat.FeedbackUrlUnderApi` | src/service/chat.ts:152 | whatever the per-call config, the feedback url stays under `/chat` |
| `Chat.FeedbackCall` | src/service/chat.ts:151-154 | a feedback call reaches the interceptors as `post` of the payload alone to the resolved url |
| `Chat.FeedbackConfig` | src/service/chat.ts:150-152 | one feedback's config yields that message's path, and that path has no placeholder left |
| `Chat.FeedbackPathFixed` | src/service/chat.ts:152 | a resolved feedback path is not changed by any later resolution |
| `Chat.FeedbackTwice` | src/shared/http/index.ts:102 | as written: two feedbacks through the shared factory both go to the first message's path |
| `Chat.FeedbackTwiceKeepingTemplate` | src/shared/http/index.ts:102 | corrected: each feedback goes to its own message's path |
| `SessionStore.InsertByCreatedAt` | src/stores/modules/session.ts:56-58 | one insertion step of the sort: the result is one longer, holds the old messages plus exactly the new one (a multiset), and starts with the new one or the old head |
| `SessionStore.InsertKeepsOrder` | src/stores/modules/session.ts:56-58 | inserting into a log ordered by `created_at` keeps it ordered |
| `SessionStore.SortByCreatedAt` | src/stores/modules/session.ts:56-58 | the sorted log is ascending by `created_at` and is a permutation of the response |
| `SessionStore.SortIsStable` | src/stores/modules/session.ts:56-58 | messages with equal `created_at` keep the server's order |
| `SessionStore.SortKeepsSorted` | src/stores/modules/session.ts:56-58 | an ordered log is left as it is, so sorting is idempotent |
| `SessionStore.MessagesQuery` | src/stores/modules/session.ts:51-54 | definition: the payload `{conversation_id, limit: 100}` |
| `SessionStore.ConversationsCall` | src/stores/modules/session.ts:22 | definition: `fetchConversations()`, the default-GET factory's call with no payload and no per-call config |
| `SessionStore.MessagesCall` | src/stores/modules/session.ts:51-54 | definition: `fetchMessages({conversation_id, limit: 100})`, the GET factory's call with that payload |
| `SessionStore.GetCallDispatch` | src/shared/http/index.ts:104-110 | a GET factory call with no per-call config reaches the interceptors as `get` of the url, with the payload as its query |
| `SessionStore.GetUnderApiOutbound` | src/shared/http/index.ts:18-32 | such a GET under `/chat` gains the bearer header and `user` in its query |
| `SessionStore.MessagesCallOnTheWire` | src/stores/modules/session.ts:51-54 | the messages fetch is a GET of `/chat/messages` with `conversation_id`, `limit = 100` and `user`, and the bearer header |
| `SessionStore.ConversationsCallOnTheWire` | src/stores/modules/session.ts:22 | the conversation list fetch is a GET of `/chat/conversations` with `user` alone in its query |
| `SessionStore.IssueFetch` | src/stores/modules/session.ts:22 | a store fetch through a fixed-path GET factory keeps its url and base, adds one controller, and sends the GET with the payload as query |
| `SessionStore.Refreshed` | src/stores/modules/session.ts:23 | the new list is `res.data`, or `[]` when absent. A failed fetch keeps the old list |
| `SessionStore.AbortHandle` | src/stores/modules/session.ts:32 | `chatAborter?.abort()` aborts a set handle and does nothing when none is set |
| `SessionStore.Store.Valid` | src/stores/modules/session.ts:56-58 | the store invariant every method keeps: the log is sorted by `created_at`, the two factories are distinct with their fixed paths and GET bases, and every pending ticket is below the next one |
| `SessionStore.Store.constructor` | src/stores/modules/session.ts:10-17 | the initial state: user `admin`, `apiKey` the configured key or `''`, and everything else empty or false |
| `SessionStore.Store.UpdateSessions` | src/stores/modules/session.ts:19-24 | a no-op without `apiKey`. Otherwise one conversations fetch, with `sessions` replaced wholesale by its result. A failure rejects and changes nothing |
| `SessionStore.Store.DeleteSession` | src/stores/modules/session.ts:26-42 | `''` does nothing. Otherwise the delete call is awaited, and a failure rejects with no clear and no refresh. If the id is the selected one, the handle is aborted and `sessionId`/`messages` are cleared; nothing else changes. Then `updateSessions` runs, and its failure rejects only when `waitUpdate` |
| `SessionStore.Store.BeginUpdateMessages` | src/stores/modules/session.ts:44-54 | a no-op without `apiKey`. `sessionLoading` is raised only when not silent, and one fetch asks for the selected conversation at call time with `limit = 100` |
| `SessionStore.Store.Enqueue` | src/stores/modules/session.ts:47-54 | the fetch is recorded under a fresh ticket with the conversation selected at call time, and `sessionLoading` is raised unless silent |
| `SessionStore.Store.CompleteUpdateMessages` | src/stores/modules/session.ts:55-62 | when the fetch settles, a received list becomes `messages` sorted by `created_at`, whatever is selected now. `sessionLoading` is false on success and failure alike, silent or not |
| `SessionStore.Store.ClearMessages` | src/stores/modules/session.ts:65-68 | `sessionId = ''` and `messages = []`, nothing else |
| `SessionStore.Store.SetApiKey` | src/stores/modules/session.ts:70-72 | only `apiKey` changes |
| `SessionStore.TwoFetchesInFlight` | src/stores/modules/session.ts:44-54 | selecting `s1` then `s2`, each followed by an un-awaited load, leaves both fetches pending under their own conversation with `s2` selected and loading on |
| `SessionStore.DeletedConversationRefilled` | src/stores/modules/session.ts:26-63 | deleting the selected conversation while its log loads clears the selection and log, but the fetch is not cancelled; when it lands, the deleted conversation's messages fill the log with nothing selected |
| `SessionStore.StaleResponseRace` | src/stores/modules/session.ts:44-63 | select `s1` and load, then select `s2` and load, with `s1`'s response last. The log then holds `s1`'s messages while `s2` is selected, and loading was already off while `s1`'s fetch was in flight |

## Left out

- The axios instance itself (src/shared/http/index.ts:6-11): the transport, the 10 s timeout, the default `Content-Type` header, and merging with instance defaults. `Http.Dispatch` is an assumption about how the client hands a call to its interceptors: `get`/`post`/`delete` fix the method, the url comes from the call, a missing method means `get`, and the method is lower-cased before the interceptors run. The lower-casing is covered on ASCII letters only.
- What an `AbortController` does to a request in flight. A controller is only a flag and a reason. `abort()` with no reason records `undefined`, where the browser would store an `AbortError`.
- The `ElMessage.error` popup: only the chosen text is recorded, as `Inbound.notice`. The `console.error` and rejection of the request-error callback (src/shared/http/index.ts:43-46) are left out too.
- The `import.meta.env` reads: the key is a parameter of the interceptor (`envKey`) and of the store's constructor.
- Pinia and Vue `ref` reactivity: the store is a plain class. The chat view's direct writes to `sessionId` and `chatAborter` are field assignments.
- Promise scheduling: an un-awaited fetch is a pair of events, issue and settle, named by a ticket. `DeleteSession` and `UpdateSessions` are each one atomic step. `DeleteSession` covers the awaited `deleteConversation` (src/stores/modules/session.ts:29) and the refresh it does not await; it reads `sessionId` at the start, where the code reads it after the await. `UpdateSessions` covers the awaited `fetchConversations` (src/stores/modules/session.ts:22). So the model cannot express a change of selection, or a messages fetch settling, while a delete is in flight. Nor can it express two overlapping conversation refreshes, such as the one inside `deleteSession` and a later `updateSessions`, with the older one settling last.
- Response bodies are typed: the store receives the `data` list as `Option<seq<…>>`. Decoding JSON into `Session`/`Message` is not modelled.
- Spreading a string or array payload, which copies indexed keys, is treated like spreading a primitive: it copies nothing.
- Headers are a plain record, so the case-insensitive `AxiosHeaders` lookup is not modelled.
- `toLocaleUpperCase` is modelled on ASCII letters only.
- `created_at` is an integer. The comparator `a.created_at - b.created_at` on fractional or NaN values is not modelled.
- Numbers: `Num` holds an integer, and `String(v)` prints it in full decimal. The model does not cover fractions (`1.5`), exponent notation (`1e+21` for 10^21), `NaN`, `Infinity` or `-0`. This matters wherever a number is substituted into a url.
- `UrlTemplate.Lookup`: `config?.[key]` (src/shared/http/index.ts:140) also reads inherited properties. For example, `transformUrl('/:constructor', {})` substitutes the text of the `Object` constructor. The model reads own keys only, so an absent key such as `constructor`, `toString` or `__proto__` gives `''`.
- `res.data.sort(...)` sorts the response array in place. The model sorts a value and assigns it, since the array is not shared with anything else in the core.
- The store uses the as-written `RequestFactory.Request`. Its two factories have fixed paths, and there the corrected `RequestKeepingTemplate` issues the same call (`Chat.ConversationsPathFixed`, `Chat.MessagesPathFixed`).
- Type-only declarations, build and dev-server configuration, lint and styling configuration, and app bootstrapping: these are not part of this model.

## Findings

| source | as written | input that shows it | evidently intended | confidence | as-written member | corrected member |
|---|---|---|---|---|---|---|
| src/shared/http/index.ts:102 | each call overwrites the factory's captured `url` with the resolved path, so the template is lost after the first call | `feedbackMessage` with config `{message_id: "m1"}`, then with `{message_id: "m2"}`: the second call posts to `/chat/messages/m1/feedbacks` | every call resolves the template `/chat/messages/:message_id/feedbacks` against its own `message_id` | not executed | `Chat.FeedbackTwice` | `Chat.FeedbackTwiceKeepingTemplate` |
