/** The chat service: the two record shapes, the three request factories
    and the three direct endpoints. Every endpoint lives under `/chat`. */
module Chat {
  import opened JsValues
  import UrlTemplate
  import Http

  /** A conversation. */
  datatype Session = Session(id: string, name: string, inputs: Record, status: string,
                             introduction: string, created_at: int, updated_at: int)

  /** One exchange of a conversation; `feedback` is free-form. */
  datatype Message = Message(id: string, conversation_id: string, inputs: Record, query: string,
                             answer: string, created_at: int, feedback: Value)

  const ConversationsPath := "/chat/conversations"
  const MessagesPath := "/chat/messages"
  const FeedbackTemplate := "/chat/messages/:message_id/feedbacks"

  /** `fetchConversations`: a factory with the default method. */
  method NewFetchConversations() returns (f: Http.RequestFactory)
    ensures fresh(f)
    ensures f.url == ConversationsPath && f.base == Http.DefaultBase && f.controllers == []
  {
    f := new Http.RequestFactory(ConversationsPath, Http.DefaultBase);
  }

  /** `fetchMessages`: a factory with the default method. */
  method NewFetchMessages() returns (f: Http.RequestFactory)
    ensures fresh(f)
    ensures f.url == MessagesPath && f.base == Http.DefaultBase && f.controllers == []
  {
    f := new Http.RequestFactory(MessagesPath, Http.DefaultBase);
  }

  /** `feedbackMessage`: a `POST` factory on the feedback template. */
  method NewFeedbackMessage() returns (f: Http.RequestFactory)
    ensures fresh(f)
    ensures f.url == FeedbackTemplate && f.base == Http.MethodName("POST") && f.controllers == []
  {
    f := new Http.RequestFactory(FeedbackTemplate, Http.MethodName("POST"));
  }

  /** `renameConversation(id, name)`. */
  function RenameConversation(id: string, name: string): Http.Call
  {
    Http.HttpPost(ConversationsPath + "/" + id + "/name", Obj(map["name" := Str(name)]))
  }

  /** `deleteConversation(id)`. */
  function DeleteConversation(id: string): Http.Call
  {
    Http.HttpDelete(ConversationsPath + "/" + id)
  }

  /** `fetchSuggestions(id)`. */
  function FetchSuggestions(id: string): Http.Call
  {
    Http.HttpGet(MessagesPath + "/" + id + "/suggested", map[])
  }

  /** The feedback path of one message. */
  function FeedbackPath(messageId: string): string
  {
    MessagesPath + "/" + messageId + "/feedbacks"
  }

  /** The text between a known prefix and a known suffix, when the string
      has both and they do not overlap. */
  function Between(s: string, prefix: string, suffix: string): (r: Option<string>)
    ensures r.Some? ==> s == prefix + r.value + suffix
  {
    if |prefix| + |suffix| <= |s| && s[..|prefix|] == prefix && s[|s| - |suffix|..] == suffix
    then
      var mid := s[|prefix|..|s| - |suffix|];
      assert s == s[..|prefix|] + mid + s[|s| - |suffix|..];
      Some(mid)
    else None
  }

  /** What is put between a prefix and a suffix can be read back. */
  lemma BetweenRoundTrip(prefix: string, mid: string, suffix: string)
    ensures Between(prefix + mid + suffix, prefix, suffix) == Some(mid)
  {
    var s := prefix + mid + suffix;
    assert s[..|prefix|] == prefix;
    assert s[|s| - |suffix|..] == suffix;
    assert s[|prefix|..|s| - |suffix|] == mid;
  }

  /** The rename and delete urls name the conversation, and the suggestion
      and feedback urls the message: each id reads back from its url. */
  lemma EndpointIds(id: string)
    ensures Between(RenameConversation(id, "").url, ConversationsPath + "/", "/name") == Some(id)
    ensures Between(DeleteConversation(id).url, ConversationsPath + "/", "") == Some(id)
    ensures Between(FetchSuggestions(id).url, MessagesPath + "/", "/suggested") == Some(id)
    ensures Between(FeedbackPath(id), MessagesPath + "/", "/feedbacks") == Some(id)
  {
    BetweenRoundTrip(ConversationsPath + "/", id, "/name");
    assert DeleteConversation(id).url == ConversationsPath + "/" + id + "";
    BetweenRoundTrip(ConversationsPath + "/", id, "");
    BetweenRoundTrip(MessagesPath + "/", id, "/suggested");
    BetweenRoundTrip(MessagesPath + "/", id, "/feedbacks");
  }

  /** Different messages have different feedback paths. */
  lemma FeedbackPathInjective(a: string, b: string)
    requires a != b
    ensures FeedbackPath(a) != FeedbackPath(b)
  {
    EndpointIds(a);
    EndpointIds(b);
  }

  /** The feedback template is the messages path, the placeholder
      `/:message_id`, and `/feedbacks`. */
  lemma FeedbackTemplateShape()
    ensures FeedbackTemplate == MessagesPath + "/:" + "message_id" + "/feedbacks"
    ensures ':' !in MessagesPath && ':' !in "/feedbacks"
    ensures UrlTemplate.IsNameStart('m') && !UrlTemplate.IsNameChar('/')
    ensures forall i :: 0 <= i < |"message_id"| ==> UrlTemplate.IsNameChar("message_id"[i])
  {
  }

  /** The feedback template resolves to the path of the message named by
      the per-call config's `message_id` (an empty segment when it is
      missing), and leaves nothing more to resolve. */
  lemma FeedbackTemplateResolves(config: Record)
    requires UrlTemplate.Clean(UrlTemplate.Lookup(config, "message_id"))
    ensures UrlTemplate.Resolve(FeedbackTemplate, config) == FeedbackPath(UrlTemplate.Lookup(config, "message_id"))
    ensures UrlTemplate.Matches(FeedbackPath(UrlTemplate.Lookup(config, "message_id"))) == []
  {
    FeedbackTemplateShape();
    UrlTemplate.OnePlaceholderResolves(MessagesPath, "message_id", "/feedbacks", config);
  }

  /** A per-call config that also carries an unrelated field, a `baseURL`
      full of colons and slashes. */
  const ConfigWithBaseUrl: Record := map["message_id" := Str("m1"), "baseURL" := Str("https://api")]

  /** Such a config resolves the template to the message's path: only
      `message_id` is substituted. */
  lemma FeedbackIgnoresOtherFields()
    ensures UrlTemplate.Resolve(FeedbackTemplate, ConfigWithBaseUrl) == FeedbackPath("m1")
  {
    assert UrlTemplate.Lookup(ConfigWithBaseUrl, "message_id") == "m1";
    FeedbackTemplateResolves(ConfigWithBaseUrl);
  }

  /** A path with no colon is its own resolution. */
  lemma FixedPathResolves(path: string, config: Record)
    requires ':' !in path
    ensures UrlTemplate.Resolve(path, config) == path
  {
    UrlTemplate.NoColonNoPlaceholder(path, config);
  }

  lemma StartsWithExtend(s: string, prefix: string, rest: string)
    requires StartsWith(s, prefix)
    ensures StartsWith(s + rest, prefix)
  {
    assert (s + rest)[..|prefix|] == s[..|prefix|];
  }

  /** A url that extends a path under `/chat` by two pieces passes the
      outbound prefix test. */
  lemma UnderApi(path: string, x: string, y: string)
    requires StartsWith(path, Http.ApiPrefix)
    ensures StartsWith(path + x + y, Http.ApiPrefix)
  {
    StartsWithExtend(path, Http.ApiPrefix, x);
    StartsWithExtend(path + x, Http.ApiPrefix, y);
  }

  /** `renameConversation` leaves the outbound stage with the bearer header
      and the body `{name, user}`. */
  lemma RenameCarriesUser(id: string, name: string, envKey: Option<string>, user: string)
    ensures var r := Http.OutboundRule(Http.Dispatch(RenameConversation(id, name)), envKey, user);
      Get(r.headers, "Authorization") == Str(Http.BearerValue(envKey)) &&
      r.data == Obj(map["name" := Str(name), "user" := Str(user)])
  {
    var url := ConversationsPath + "/" + id + "/name";
    ConversationsPathFixed(map[]);
    UnderApi(ConversationsPath, "/", id);
    StartsWithExtend(ConversationsPath + "/" + id, Http.ApiPrefix, "/name");
    assert |ToUpperAscii("post")| == 4;
    Http.OutboundBody(url, "post", map[], Undefined, Obj(map["name" := Str(name)]), envKey, user);
    assert map["name" := Str(name)]["user" := Str(user)] == map["name" := Str(name), "user" := Str(user)];
  }

  /** `deleteConversation` leaves the outbound stage with the bearer header
      and the body `{user}`. */
  lemma DeleteCarriesUser(id: string, envKey: Option<string>, user: string)
    ensures var r := Http.OutboundRule(Http.Dispatch(DeleteConversation(id)), envKey, user);
      Get(r.headers, "Authorization") == Str(Http.BearerValue(envKey)) &&
      r.data == Obj(map["user" := Str(user)])
  {
    var url := ConversationsPath + "/" + id;
    ConversationsPathFixed(map[]);
    UnderApi(ConversationsPath, "/", id);
    assert |ToUpperAscii("delete")| == 6;
    Http.OutboundBody(url, "delete", map[], Undefined, Undefined, envKey, user);
  }

  /** `fetchSuggestions` leaves the outbound stage with the bearer header and
      the query `{user}`. */
  lemma SuggestionsCarryUser(id: string, envKey: Option<string>, user: string)
    ensures var r := Http.OutboundRule(Http.Dispatch(FetchSuggestions(id)), envKey, user);
      Get(r.headers, "Authorization") == Str(Http.BearerValue(envKey)) &&
      r.params == Obj(map["user" := Str(user)])
  {
    var url := MessagesPath + "/" + id + "/suggested";
    MessagesPathFixed(map[]);
    UnderApi(MessagesPath, "/", id);
    StartsWithExtend(MessagesPath + "/" + id, Http.ApiPrefix, "/suggested");
    Http.OutboundQuery(url, map[], Undefined, Undefined, envKey, user);
  }

  /** `/chat` is a leading segment resolution cannot disturb. */
  lemma ApiPrefixSafe()
    ensures UrlTemplate.SafePrefix(Http.ApiPrefix)
  {
  }

  /** Whatever the per-call config, the conversations path stays as it is,
      and it is under `/chat`. */
  lemma ConversationsPathFixed(config: Record)
    ensures UrlTemplate.Resolve(ConversationsPath, config) == ConversationsPath
    ensures StartsWith(ConversationsPath, Http.ApiPrefix)
  {
    assert ':' !in ConversationsPath;
    FixedPathResolves(ConversationsPath, config);
  }

  /** Whatever the per-call config, the messages path stays as it is, and it
      is under `/chat`. */
  lemma MessagesPathFixed(config: Record)
    ensures UrlTemplate.Resolve(MessagesPath, config) == MessagesPath
    ensures StartsWith(MessagesPath, Http.ApiPrefix)
  {
    assert ':' !in MessagesPath;
    FixedPathResolves(MessagesPath, config);
  }

  /** Whatever the per-call config, the feedback template resolves to a url
      under `/chat`. */
  lemma FeedbackUrlUnderApi(config: Record)
    ensures StartsWith(UrlTemplate.Resolve(FeedbackTemplate, config), Http.ApiPrefix)
  {
    ApiPrefixSafe();
    assert FeedbackTemplate[..5] == Http.ApiPrefix;
    UrlTemplate.ResolveKeepsPrefix(FeedbackTemplate, config, Http.ApiPrefix);
  }

  /** A call of the feedback factory is a `POST` of the payload alone to the
      url it resolved. */
  lemma FeedbackCall(url: string, payload: Value, config: Record, signal: nat)
    ensures var d := Http.Dispatch(Http.Outgoing(Http.BaseRecord(Http.MethodName("POST")), url, payload, config, signal));
      d.url == Some(url) && d.verb == Some("post") && d.data == payload
  {
    assert ToLowerAscii("POST") == "post";
  }

  /** Two feedbacks sent through the one shared `feedbackMessage`: the
      first goes to its message's path, and so does the second, whatever
      message it names. */
  method FeedbackTwice(first: string, second: string, rating: Value) returns (c1: Http.Call, c2: Http.Call)
    requires UrlTemplate.Clean(first)
    ensures Http.Dispatch(c1).url == Some(FeedbackPath(first))
    ensures Http.Dispatch(c2).url == Some(FeedbackPath(first))
    ensures first != second ==> Http.Dispatch(c2).url != Some(FeedbackPath(second))
    ensures Http.Dispatch(c1).verb == Some("post") && Http.Dispatch(c1).data == rating
  {
    var f := NewFeedbackMessage();
    var cfg1 := map["message_id" := Str(first)];
    var cfg2 := map["message_id" := Str(second)];
    FeedbackConfig(first);
    c1 := f.Request(rating, cfg1);
    FeedbackCall(f.url, rating, cfg1, 0);
    FeedbackPathFixed(first, cfg2);
    c2 := f.Request(rating, cfg2);
    FeedbackCall(f.url, rating, cfg2, 1);
    if first != second {
      FeedbackPathInjective(first, second);
    }
  }

  /** The same two feedbacks with the template resolved afresh on each
      call: each goes to its own message's path. */
  method FeedbackTwiceKeepingTemplate(first: string, second: string, rating: Value) returns (c1: Http.Call, c2: Http.Call)
    requires UrlTemplate.Clean(first) && UrlTemplate.Clean(second)
    ensures Http.Dispatch(c1).url == Some(FeedbackPath(first))
    ensures Http.Dispatch(c2).url == Some(FeedbackPath(second))
    ensures Http.Dispatch(c1).verb == Some("post") && Http.Dispatch(c1).data == rating
  {
    var f := NewFeedbackMessage();
    var cfg1 := map["message_id" := Str(first)];
    var cfg2 := map["message_id" := Str(second)];
    FeedbackConfig(first);
    FeedbackConfig(second);
    c1 := f.RequestKeepingTemplate(rating, cfg1);
    FeedbackCall(UrlTemplate.Resolve(FeedbackTemplate, cfg1), rating, cfg1, 0);
    c2 := f.RequestKeepingTemplate(rating, cfg2);
    FeedbackCall(UrlTemplate.Resolve(FeedbackTemplate, cfg2), rating, cfg2, 1);
  }

  /** The per-call config of one feedback resolves the template to that
      message's path. */
  lemma FeedbackConfig(id: string)
    requires UrlTemplate.Clean(id)
    ensures UrlTemplate.Resolve(FeedbackTemplate, map["message_id" := Str(id)]) == FeedbackPath(id)
    ensures UrlTemplate.Matches(FeedbackPath(id)) == []
  {
    var cfg := map["message_id" := Str(id)];
    assert UrlTemplate.Lookup(cfg, "message_id") == id;
    FeedbackTemplateResolves(cfg);
  }

  /** A resolved feedback path has no placeholder left: no later config
      changes it. */
  lemma FeedbackPathFixed(id: string, later: Record)
    requires UrlTemplate.Clean(id)
    ensures UrlTemplate.Resolve(FeedbackPath(id), later) == FeedbackPath(id)
  {
    FeedbackConfig(id);
  }
}
