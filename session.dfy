/** The session store: the session list, the selected conversation, its
    message log and loading flag, and the chat's cancellation handle. A fetch
    the store does not await is split into the event that issues it and the
    event that settles it; what the transport delivers is a parameter. */
module SessionStore {
  import opened JsValues
  import UrlTemplate
  import Http
  import Chat

  /** How an awaited call settled, with the body it resolved to. */
  datatype Outcome<T> = Ok(value: T) | Err(error: Http.HttpError)

  /** How one of the store's own async operations settles. */
  datatype Status = Done | Failed(error: Http.HttpError)

  // ---------------------------------------------------------------------
  // Ordering a fetched message log.

  predicate SortedByCreatedAt(ms: seq<Chat.Message>)
  {
    forall i, j :: 0 <= i < j < |ms| ==> ms[i].created_at <= ms[j].created_at
  }

  /** Puts m in front of the first message that is not older than it. */
  function InsertByCreatedAt(m: Chat.Message, ms: seq<Chat.Message>): (r: seq<Chat.Message>)
    ensures multiset(r) == multiset(ms) + multiset{m}
    ensures |r| == |ms| + 1 && (r[0] == m || (ms != [] && r[0] == ms[0]))
  {
    if ms == [] || m.created_at <= ms[0].created_at then [m] + ms
    else
      assert ms == [ms[0]] + ms[1..];
      [ms[0]] + InsertByCreatedAt(m, ms[1..])
  }

  /** Inserting into an ordered log keeps it ordered. */
  lemma {:induction false} InsertKeepsOrder(m: Chat.Message, ms: seq<Chat.Message>)
    requires SortedByCreatedAt(ms)
    ensures SortedByCreatedAt(InsertByCreatedAt(m, ms))
  {
    if !(ms == [] || m.created_at <= ms[0].created_at) {
      InsertKeepsOrder(m, ms[1..]);
      var rest := InsertByCreatedAt(m, ms[1..]);
      assert rest[0] == m || rest[0] == ms[1];
      assert InsertByCreatedAt(m, ms) == [ms[0]] + rest;
    }
  }

  /** `data.sort((a, b) => a.created_at - b.created_at)`, a stable sort. */
  function SortByCreatedAt(ms: seq<Chat.Message>): (r: seq<Chat.Message>)
    ensures SortedByCreatedAt(r)
    ensures multiset(r) == multiset(ms)
  {
    if ms == [] then []
    else
      assert ms == [ms[0]] + ms[1..];
      var rest := SortByCreatedAt(ms[1..]);
      InsertKeepsOrder(ms[0], rest);
      InsertByCreatedAt(ms[0], rest)
  }

  /** The messages created at time t, in their order. */
  function CreatedAt(ms: seq<Chat.Message>, t: int): seq<Chat.Message>
  {
    if ms == [] then []
    else (if ms[0].created_at == t then [ms[0]] else []) + CreatedAt(ms[1..], t)
  }

  lemma {:induction false} InsertKeepsTies(m: Chat.Message, ms: seq<Chat.Message>, t: int)
    ensures CreatedAt(InsertByCreatedAt(m, ms), t) == (if m.created_at == t then [m] else []) + CreatedAt(ms, t)
  {
    if ms == [] || m.created_at <= ms[0].created_at {
      assert ([m] + ms)[1..] == ms;
    } else {
      var rest := InsertByCreatedAt(m, ms[1..]);
      InsertKeepsTies(m, ms[1..], t);
      assert ([ms[0]] + rest)[1..] == rest;
      assert ms[0].created_at != t || m.created_at != t;
    }
  }

  /** The sort is stable: messages with the same creation time keep the order
      the server sent them in. */
  lemma {:induction false} SortIsStable(ms: seq<Chat.Message>, t: int)
    ensures CreatedAt(SortByCreatedAt(ms), t) == CreatedAt(ms, t)
  {
    if ms != [] {
      SortIsStable(ms[1..], t);
      InsertKeepsTies(ms[0], SortByCreatedAt(ms[1..]), t);
    }
  }

  /** A log already in order is left as it is, so sorting twice is sorting
      once. */
  lemma {:induction false} SortKeepsSorted(ms: seq<Chat.Message>)
    requires SortedByCreatedAt(ms)
    ensures SortByCreatedAt(ms) == ms
  {
    if ms != [] {
      SortKeepsSorted(ms[1..]);
      assert [ms[0]] + ms[1..] == ms;
    }
  }

  // ---------------------------------------------------------------------
  // The calls the store issues.

  /** The base every GET factory ends up with. */
  const GetBase: Record := map["method" := Str("GET")]

  /** The page size `updateMessages` asks for. */
  const MessagesLimit := 100

  /** `{ conversation_id: sessionId.value, limit: 100 }`. */
  function MessagesQuery(conversationId: string): Value
  {
    Obj(map["conversation_id" := Str(conversationId), "limit" := Num(MessagesLimit)])
  }

  /** `fetchConversations()`, made with the factory's signal-th controller. */
  function ConversationsCall(signal: nat): Http.Call
  {
    Http.Outgoing(GetBase, Chat.ConversationsPath, Undefined, map[], signal)
  }

  /** `fetchMessages({ conversation_id, limit: 100 })`. */
  function MessagesCall(conversationId: string, signal: nat): Http.Call
  {
    Http.Outgoing(GetBase, Chat.MessagesPath, MessagesQuery(conversationId), map[], signal)
  }

  /** What the interceptors receive for a GET factory call with no per-call
      config: the url, `get`, no headers, and the payload as the query. */
  lemma GetCallDispatch(url: string, payload: Value, signal: nat)
    ensures Http.Dispatch(Http.Outgoing(GetBase, url, payload, map[], signal))
         == Http.RequestConfig(Some(url), Some("get"), map[], Obj(Spread(payload)), Undefined)
  {
    var final := map["signal" := Signal(signal)] + GetBase + map[];
    assert Spread(Get(GetBase, "params")) + Spread(payload) == Spread(payload);
    assert "headers" !in final["params" := Obj(Spread(payload))];
    assert "data" !in final["params" := Obj(Spread(payload))];
  }

  /** A GET under `/chat` leaves the outbound stage with the bearer header
      and the user added to its query. */
  lemma GetUnderApiOutbound(url: string, query: Record, envKey: Option<string>, user: string)
    requires StartsWith(url, Http.ApiPrefix)
    ensures Http.OutboundRule(Http.RequestConfig(Some(url), Some("get"), map[], Obj(query), Undefined), envKey, user)
         == Http.RequestConfig(Some(url), Some("get"), map["Authorization" := Str(Http.BearerValue(envKey))],
                               Obj(query["user" := Str(user)]), Undefined)
  {
    assert ToUpperAscii("get") == "GET";
  }

  /** On the wire, the messages fetch is a GET of `/chat/messages` whose
      query holds the conversation, the page size and the user, with the
      bearer header set. */
  lemma MessagesCallOnTheWire(conversationId: string, signal: nat, envKey: Option<string>, user: string)
    ensures var r := Http.OutboundRule(Http.Dispatch(MessagesCall(conversationId, signal)), envKey, user);
      && r.url == Some(Chat.MessagesPath) && r.verb == Some("get")
      && Get(r.headers, "Authorization") == Str(Http.BearerValue(envKey))
      && r.params == Obj(map["conversation_id" := Str(conversationId), "limit" := Num(MessagesLimit), "user" := Str(user)])
  {
    Chat.MessagesPathFixed(map[]);
    GetCallDispatch(Chat.MessagesPath, MessagesQuery(conversationId), signal);
    var q := map["conversation_id" := Str(conversationId), "limit" := Num(MessagesLimit)];
    GetUnderApiOutbound(Chat.MessagesPath, q, envKey, user);
  }

  /** On the wire, the conversation list fetch is a GET of
      `/chat/conversations` asking for the user alone, with the bearer
      header set. */
  lemma ConversationsCallOnTheWire(signal: nat, envKey: Option<string>, user: string)
    ensures var r := Http.OutboundRule(Http.Dispatch(ConversationsCall(signal)), envKey, user);
      && r.url == Some(Chat.ConversationsPath) && r.verb == Some("get")
      && Get(r.headers, "Authorization") == Str(Http.BearerValue(envKey))
      && r.params == Obj(map["user" := Str(user)])
  {
    Chat.ConversationsPathFixed(map[]);
    GetCallDispatch(Chat.ConversationsPath, Undefined, signal);
    GetUnderApiOutbound(Chat.ConversationsPath, map[], envKey, user);
  }

  /** `res.data || []`: the fetched list, or nothing when it is absent; a
      failed fetch keeps the current list. */
  function Refreshed(fetched: Outcome<Option<seq<Chat.Session>>>, current: seq<Chat.Session>): (r: seq<Chat.Session>)
    ensures fetched.Err? ==> r == current
    ensures fetched.Ok? && fetched.value.Some? ==> r == fetched.value.value
    ensures fetched.Ok? && fetched.value.None? ==> r == []
  {
    match fetched
    case Ok(page) => if page.Some? then page.value else []
    case Err(_) => current
  }

  /** `chatAborter.value?.abort()`: aborts the handle when one is set; a
      handle already aborted keeps its state. */
  function AbortHandle(h: Option<Http.Controller>): (r: Option<Http.Controller>)
    ensures h.None? <==> r.None?
    ensures h.Some? ==> r.value.aborted
    ensures h.Some? && h.value.aborted ==> r == h
  {
    match h
    case None => None
    case Some(c) => Some(Http.AbortLatest([c], Undefined)[0])
  }

  /** One call of a GET factory on a fixed path, with no per-call config:
      the factory keeps its path and base and gains one controller. */
  method IssueFetch(f: Http.RequestFactory, path: string, payload: Value) returns (call: Http.Call)
    requires f.url == path && Http.BaseRecord(f.base) == GetBase
    requires UrlTemplate.Resolve(path, map[]) == path
    modifies f
    ensures f.url == path && Http.BaseRecord(f.base) == GetBase
    ensures f.controllers == old(f.controllers) + [Http.Controller(false, Undefined)]
    ensures call == Http.Outgoing(GetBase, path, payload, map[], |old(f.controllers)|)
  {
    call := f.Request(payload, map[]);
  }

  /** The store's fields, as one value. */
  datatype StoreState = StoreState(
    user: string,
    apiKey: string,
    sessions: seq<Chat.Session>,
    sessionId: string,
    sessionLoading: bool,
    messages: seq<Chat.Message>,
    enableSuggestions: bool,
    chatAborter: Option<Http.Controller>,
    pending: map<nat, string>,
    nextTicket: nat)

  /** `useSessionStore()`. */
  class Store {
    var user: string
    var apiKey: string
    var sessions: seq<Chat.Session>
    var sessionId: string
    var sessionLoading: bool
    var messages: seq<Chat.Message>
    var enableSuggestions: bool
    /** A cancellation handle the chat view may set. */
    var chatAborter: Option<Http.Controller>
    /** The messages fetches issued and not yet settled, by ticket, with the
        conversation each asked for. */
    var pending: map<nat, string>
    var nextTicket: nat
    /** The shared `fetchConversations` and `fetchMessages` factories. */
    const conversations: Http.RequestFactory
    const messageLog: Http.RequestFactory

    function State(): StoreState
      reads this
    {
      StoreState(user, apiKey, sessions, sessionId, sessionLoading, messages, enableSuggestions,
                 chatAborter, pending, nextTicket)
    }

    /** Both factories still target their fixed paths with a GET base, the
        log is in creation order, and every ticket in flight was issued. */
    predicate Valid()
      reads this, conversations, messageLog
    {
      && conversations != messageLog
      && conversations.url == Chat.ConversationsPath && Http.BaseRecord(conversations.base) == GetBase
      && messageLog.url == Chat.MessagesPath && Http.BaseRecord(messageLog.base) == GetBase
      && SortedByCreatedAt(messages)
      && forall t :: t in pending ==> t < nextTicket
    }

    /** The initial state, with the configured key (or `''`) as `apiKey`. */
    constructor (envKey: Option<string>, conversations: Http.RequestFactory, messageLog: Http.RequestFactory)
      requires conversations != messageLog
      requires conversations.url == Chat.ConversationsPath && Http.BaseRecord(conversations.base) == GetBase
      requires messageLog.url == Chat.MessagesPath && Http.BaseRecord(messageLog.base) == GetBase
      ensures Valid()
      ensures State() == StoreState("admin", if envKey.Some? then envKey.value else "", [], "", false, [], false, None, map[], 0)
      ensures this.conversations == conversations && this.messageLog == messageLog
    {
      user := "admin";
      apiKey := if envKey.Some? then envKey.value else "";
      sessions := [];
      sessionId := "";
      sessionLoading := false;
      messages := [];
      enableSuggestions := false;
      chatAborter := None;
      pending := map[];
      nextTicket := 0;
      this.conversations := conversations;
      this.messageLog := messageLog;
    }

    /** `updateSessions()`: without a key nothing happens; otherwise the list
        is replaced by the fetched one, and a failed fetch rejects and keeps
        the list. */
    method UpdateSessions(fetched: Outcome<Option<seq<Chat.Session>>>) returns (call: Option<Http.Call>, status: Status)
      requires Valid()
      modifies this, conversations
      ensures Valid()
      ensures old(apiKey) == "" ==>
        call == None && status == Done && State() == old(State()) &&
        conversations.controllers == old(conversations.controllers)
      ensures old(apiKey) != "" ==>
        && call == Some(ConversationsCall(|old(conversations.controllers)|))
        && State() == old(State()).(sessions := Refreshed(fetched, old(sessions)))
        && status == (if fetched.Err? then Failed(fetched.error) else Done)
        && conversations.controllers == old(conversations.controllers) + [Http.Controller(false, Undefined)]
    {
      if apiKey == "" {
        call, status := None, Done;
        return;
      }
      Chat.ConversationsPathFixed(map[]);
      var c := IssueFetch(conversations, Chat.ConversationsPath, Undefined);
      call := Some(c);
      match fetched
      case Ok(page) =>
        sessions := if page.Some? then page.value else [];
        status := Done;
      case Err(e) =>
        status := Failed(e);
    }

    /** `deleteSession(id, waitUpdate)`, with the outcomes of its delete call
        and of the refresh it runs. */
    method DeleteSession(id: string, waitUpdate: bool, deleted: Status, refreshed: Outcome<Option<seq<Chat.Session>>>)
      returns (calls: seq<Http.Call>, status: Status)
      requires Valid()
      modifies this, conversations
      ensures Valid()
      ensures id == "" ==>
        calls == [] && status == Done && State() == old(State()) &&
        conversations.controllers == old(conversations.controllers)
      ensures id != "" && deleted.Failed? ==>
        calls == [Chat.DeleteConversation(id)] && status == deleted && State() == old(State()) &&
        conversations.controllers == old(conversations.controllers)
      ensures id != "" && deleted.Done? ==>
        var cleared := if id == old(sessionId)
                       then old(State()).(chatAborter := AbortHandle(old(chatAborter)), sessionId := "", messages := [])
                       else old(State());
        var refresh := old(apiKey) != "";
        && State() == cleared.(sessions := if refresh then Refreshed(refreshed, old(sessions)) else old(sessions))
        && calls == [Chat.DeleteConversation(id)] + (if refresh then [ConversationsCall(|old(conversations.controllers)|)] else [])
        && status == (if waitUpdate && refresh && refreshed.Err? then Failed(refreshed.error) else Done)
        && conversations.controllers == old(conversations.controllers) + (if refresh then [Http.Controller(false, Undefined)] else [])
    {
      if id == "" {
        calls, status := [], Done;
        return;
      }
      calls := [Chat.DeleteConversation(id)];
      if deleted.Failed? {
        status := deleted;
        return;
      }
      if id == sessionId {
        chatAborter := AbortHandle(chatAborter);
        ClearMessages();
      }
      var call, refreshStatus := UpdateSessions(refreshed);
      if call.Some? {
        calls := calls + [call.value];
      }
      status := if waitUpdate then refreshStatus else Done;
    }

    /** `updateMessages(silent)` up to the point where it returns: the fetch
        for the selected conversation is issued, and the loading flag raised
        unless silent. The ticket names the fetch for its settling event. */
    method BeginUpdateMessages(silent: bool) returns (ticket: Option<nat>, call: Option<Http.Call>)
      requires Valid()
      modifies this, messageLog
      ensures Valid()
      ensures old(apiKey) == "" ==>
        ticket == None && call == None && State() == old(State()) &&
        messageLog.controllers == old(messageLog.controllers)
      ensures old(apiKey) != "" ==>
        && ticket == Some(old(nextTicket))
        && call == Some(MessagesCall(old(sessionId), |old(messageLog.controllers)|))
        && State() == old(State()).(sessionLoading := if silent then old(sessionLoading) else true,
                                    pending := old(pending)[old(nextTicket) := old(sessionId)],
                                    nextTicket := old(nextTicket) + 1)
        && messageLog.controllers == old(messageLog.controllers) + [Http.Controller(false, Undefined)]
    {
      if apiKey == "" {
        ticket, call := None, None;
        return;
      }
      Chat.MessagesPathFixed(map[]);
      ghost var signal := |messageLog.controllers|;
      var c := IssueFetch(messageLog, Chat.MessagesPath, MessagesQuery(sessionId));
      assert c == MessagesCall(sessionId, signal);
      call := Some(c);
      var t := Enqueue(silent);
      ticket := Some(t);
    }

    /** Records a fetch of the selected conversation's log as pending under
        a fresh ticket, and raises the loading flag unless silent. */
    method Enqueue(silent: bool) returns (ticket: nat)
      requires Valid()
      modifies this
      ensures Valid()
      ensures ticket == old(nextTicket)
      ensures State() == old(State()).(sessionLoading := if silent then old(sessionLoading) else true,
                                       pending := old(pending)[old(nextTicket) := old(sessionId)],
                                       nextTicket := old(nextTicket) + 1)
    {
      if !silent {
        sessionLoading := true;
      }
      ticket := nextTicket;
      pending := pending[nextTicket := sessionId];
      nextTicket := nextTicket + 1;
    }

    /** The fetch with this ticket settles: on a body with a message list the
        log becomes that list in creation order, whatever conversation is
        selected by now; in every case loading ends. */
    method CompleteUpdateMessages(ticket: nat, fetched: Outcome<Option<seq<Chat.Message>>>)
      requires Valid() && ticket in pending
      modifies this
      ensures Valid()
      ensures State() == old(State()).(
        messages := if fetched.Ok? && fetched.value.Some? then SortByCreatedAt(fetched.value.value) else old(messages),
        sessionLoading := false,
        pending := old(pending) - {ticket})
    {
      if fetched.Ok? && fetched.value.Some? {
        messages := SortByCreatedAt(fetched.value.value);
      }
      sessionLoading := false;
      pending := pending - {ticket};
    }

    /** `clearMessages()`. */
    method ClearMessages()
      requires Valid()
      modifies this
      ensures Valid()
      ensures State() == old(State()).(sessionId := "", messages := [])
    {
      sessionId := "";
      messages := [];
    }

    /** `setApiKey(key)`. */
    method SetApiKey(key: string)
      requires Valid()
      modifies this
      ensures Valid()
      ensures State() == old(State()).(apiKey := key)
    {
      apiKey := key;
    }
  }

  /** A fresh store with the key configured, where conversation `s1` is
      selected and its log requested, then `s2` selected and its log
      requested, both without waiting. */
  method TwoFetchesInFlight() returns (store: Store)
    ensures fresh(store) && store.Valid()
    ensures store.sessionId == "s2" && store.sessionLoading
    ensures 0 in store.pending && store.pending[0] == "s1"
    ensures 1 in store.pending && store.pending[1] == "s2"
  {
    var convs := Chat.NewFetchConversations();
    var msgs := Chat.NewFetchMessages();
    store := new Store(Some("app-key"), convs, msgs);
    store.sessionId := "s1";
    var t1, _ := store.BeginUpdateMessages(false);
    assert store.apiKey == "app-key" && store.nextTicket == 1 && 0 in store.pending && store.pending[0] == "s1";
    store.sessionId := "s2";
    var t2, _ := store.BeginUpdateMessages(false);
  }

  /** Two conversations selected in turn, each loading its log, with the
      first one's response arriving last: the log ends up holding the first
      conversation's messages while the second is selected, and loading was
      already off while the first fetch was still in flight. */
  method StaleResponseRace(older: seq<Chat.Message>, newer: seq<Chat.Message>)
    returns (selected: string, shown: seq<Chat.Message>, loadingMeanwhile: bool, askedFirst: string)
    ensures selected == "s2" && askedFirst == "s1"
    ensures shown == SortByCreatedAt(older)
    ensures !loadingMeanwhile
  {
    var store := TwoFetchesInFlight();
    store.CompleteUpdateMessages(1, Ok(Some(newer)));
    loadingMeanwhile := store.sessionLoading;
    askedFirst := store.pending[0];
    store.CompleteUpdateMessages(0, Ok(Some(older)));
    selected, shown := store.sessionId, store.messages;
  }

  /** A conversation deleted while its log is still loading: the delete
      aborts only the chat handle, so the messages fetch is not cancelled.
      Deleting clears the selection and the log, and when the fetch lands
      the deleted conversation's messages fill the log again, with nothing
      selected. */
  method DeletedConversationRefilled(stale: seq<Chat.Message>)
    returns (clearedMeanwhile: bool, selected: string, shown: seq<Chat.Message>)
    ensures clearedMeanwhile
    ensures selected == "" && shown == SortByCreatedAt(stale)
  {
    var convs := Chat.NewFetchConversations();
    var msgs := Chat.NewFetchMessages();
    var store := new Store(Some("app-key"), convs, msgs);
    store.sessionId := "s1";
    var t, _ := store.BeginUpdateMessages(false);
    assert t == Some(0) && 0 in store.pending;
    var _, _ := store.DeleteSession("s1", false, Done, Ok(None));
    clearedMeanwhile := store.sessionId == "" && store.messages == [];
    store.CompleteUpdateMessages(0, Ok(Some(stale)));
    selected, shown := store.sessionId, store.messages;
  }
}
