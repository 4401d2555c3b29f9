/**
 * The chat context: the reducer over the chat state record and the provider's
 * `joinChat`, `leaveChat`, `sendMessage`, `loadMessages`, `loadOnlineUsers` and
 * `updateOnlineStatus` controllers. Every `fetch` becomes a parameter saying how
 * the server answered; the Echo (WebSocket) client appears only as the set of
 * private channels it is listening on.
 */
module ChatContext {
  import opened JsRuntime
  import opened ChatConfig

  /** A chat message as the server sends it. */
  datatype ChatMessage = ChatMessage(id: int, userId: int, userName: string, body: string, createdAt: string)

  /** An entry of the online-users list. */
  datatype OnlineUser = OnlineUser(id: int, name: string)

  /** The reducer's state record; `error` is `null` or a message. */
  datatype ChatState = ChatState(
    messages: seq<ChatMessage>,
    onlineUsers: seq<OnlineUser>,
    isConnected: bool,
    loading: bool,
    error: Option<string>,
    hasJoined: bool)

  /** The seven action kinds the reducer knows, and any other `type`. */
  datatype Action =
    | SetMessages(messages: seq<ChatMessage>)
    | AddMessage(message: ChatMessage)
    | SetOnlineUsers(users: seq<OnlineUser>)
    | SetConnectionStatus(connected: bool)
    | SetLoading(loading: bool)
    | SetError(error: string)
    | SetJoined(joined: bool)
    | Unrecognised(kind: string)

  /** The state the provider starts from. */
  const InitialState: ChatState := ChatState([], [], false, false, None, false)

  /** The fields of the state record; `NoField` for an action that touches none. */
  datatype Field = Messages | OnlineUsers | IsConnected | Loading | Error | HasJoined | NoField

  /** The field an action is about. */
  function Target(action: Action): Field {
    match action
    case SetMessages(_) => Messages
    case AddMessage(_) => Messages
    case SetOnlineUsers(_) => OnlineUsers
    case SetConnectionStatus(_) => IsConnected
    case SetLoading(_) => Loading
    case SetError(_) => Error
    case SetJoined(_) => HasJoined
    case Unrecognised(_) => NoField
  }

  /** `s` and `t` agree on every field except possibly `f`. */
  predicate AgreeExcept(s: ChatState, t: ChatState, f: Field) {
    && (f != Messages ==> s.messages == t.messages)
    && (f != OnlineUsers ==> s.onlineUsers == t.onlineUsers)
    && (f != IsConnected ==> s.isConnected == t.isConnected)
    && (f != Loading ==> s.loading == t.loading)
    && (f != Error ==> s.error == t.error)
    && (f != HasJoined ==> s.hasJoined == t.hasJoined)
  }

  /**
   * `chatReducer`. Every action rewrites only its own field; an unknown action
   * returns the state as it was.
   */
  function ChatReducer(state: ChatState, action: Action): (r: ChatState)
    ensures AgreeExcept(state, r, Target(action))
    ensures action.Unrecognised? ==> r == state
  {
    match action
    case SetMessages(messages) => state.(messages := messages)
    case AddMessage(message) => state.(messages := state.messages + [message])
    case SetOnlineUsers(users) => state.(onlineUsers := users)
    case SetConnectionStatus(connected) => state.(isConnected := connected)
    case SetLoading(loading) => state.(loading := loading)
    case SetError(error) => state.(error := Some(error))
    case SetJoined(joined) => state.(hasJoined := joined)
    case Unrecognised(_) => state
  }

  /** The state reached by dispatching `actions` in order, starting from `state`. */
  function Replay(state: ChatState, actions: seq<Action>): ChatState {
    if actions == [] then state
    else ChatReducer(Replay(state, actions[..|actions| - 1]), actions[|actions| - 1])
  }

  /** Replaying a concatenation replays its halves one after the other. */
  lemma {:induction false} ReplayAppend(state: ChatState, xs: seq<Action>, ys: seq<Action>)
    ensures Replay(state, xs + ys) == Replay(Replay(state, xs), ys)
  {
    if ys != [] {
      var zs := xs + ys;
      assert zs[..|zs| - 1] == xs + ys[..|ys| - 1];
      ReplayAppend(state, xs, ys[..|ys| - 1]);
    } else {
      assert xs + ys == xs;
    }
  }

  /**
   * `SET_MESSAGES` replaces the whole list with the payload, whatever was there
   * before, and changes nothing else.
   */
  lemma SetMessagesReplaces(state: ChatState, messages: seq<ChatMessage>)
    ensures var r := ChatReducer(state, SetMessages(messages));
      r.messages == messages && r.(messages := state.messages) == state
  {
  }

  /**
   * `ADD_MESSAGE` appends without looking at what is there: the log grows by
   * one, the old log is a prefix, and a message already present is added again.
   */
  lemma AddMessageAppends(state: ChatState, message: ChatMessage)
    ensures var r := ChatReducer(state, AddMessage(message));
      && |r.messages| == |state.messages| + 1
      && r.messages[..|state.messages|] == state.messages
      && r.messages[|state.messages|] == message
      && multiset(r.messages)[message] == multiset(state.messages)[message] + 1
  {
    var r := ChatReducer(state, AddMessage(message));
    assert r.messages == state.messages + [message];
  }

  /** Every action but `ADD_MESSAGE` sets a value, so dispatching it twice is dispatching it once. */
  lemma SetActionsIdempotent(state: ChatState, action: Action)
    requires !action.AddMessage?
    ensures ChatReducer(ChatReducer(state, action), action) == ChatReducer(state, action)
  {
  }

  /**
   * A run of `ADD_MESSAGE` actions, as the `ChatMessageSent` listener produces,
   * leaves the log equal to the old log followed by the pushed messages, in
   * arrival order and without deduplication, and touches no other field.
   */
  lemma {:induction false} ReplayAddMessages(state: ChatState, pushed: seq<ChatMessage>)
    ensures var r := Replay(state, seq(|pushed|, i requires 0 <= i < |pushed| => AddMessage(pushed[i])));
      r.messages == state.messages + pushed && r.(messages := state.messages) == state
  {
    var actions := seq(|pushed|, i requires 0 <= i < |pushed| => AddMessage(pushed[i]));
    if pushed == [] {
      assert actions == [];
    } else {
      var front := pushed[..|pushed| - 1];
      ReplayAddMessages(state, front);
      assert actions[..|actions| - 1] == seq(|front|, i requires 0 <= i < |front| => AddMessage(front[i]));
      assert state.messages + front + [pushed[|pushed| - 1]] == state.messages + pushed;
    }
  }

  /** How the server answered the join request. `JoinOk` carries `data.room_id`. */
  datatype JoinResponse = JoinOk(roomId: string) | JoinNotOk | JoinThrows

  /** How a GET of the history or of the online users went; `Fetched(None)` is a body without the list. */
  datatype FetchResult<T> = Fetched(payload: Option<T>) | FetchNotOk | FetchThrows

  /** The leave request either returns (whatever its status) or throws. */
  datatype LeaveResponse = LeaveReturned | LeaveThrows

  datatype SendResponse = SendOk | SendNotOk | SendThrows

  /** The requests the provider sends to the chat endpoints. */
  datatype Request =
    | JoinRequest
    | LeaveRequest
    | SendMessageRequest(message: string)
    | MessagesRequest
    | OnlineUsersRequest
    | UpdateStatusRequest

  /** The actions `loadMessages` dispatches: the list of a successful answer, or `[]` when it has none. */
  function LoadMessagesActions(result: FetchResult<seq<ChatMessage>>): seq<Action> {
    match result
    case Fetched(payload) => [SetMessages(payload.GetOr([]))]
    case _ => []
  }

  /** The actions `loadOnlineUsers` dispatches. */
  function LoadOnlineUsersActions(result: FetchResult<seq<OnlineUser>>): seq<Action> {
    match result
    case Fetched(payload) => [SetOnlineUsers(payload.GetOr([]))]
    case _ => []
  }

  /** The actions of an accepted join: `hasJoined` is set, then the history and the users are loaded. */
  function AcceptedActions(history: FetchResult<seq<ChatMessage>>, users: FetchResult<seq<OnlineUser>>): seq<Action> {
    [SetJoined(true)] + LoadMessagesActions(history) + LoadOnlineUsersActions(users)
  }

  /**
   * The actions `joinChat` dispatches when a token is present, in order:
   * `loading` is set first and cleared last with no other loading action in
   * between, `hasJoined` is set exactly when the join is accepted, and the join
   * error is raised exactly when it is not.
   */
  function JoinActions(
    join: JoinResponse,
    history: FetchResult<seq<ChatMessage>>,
    users: FetchResult<seq<OnlineUser>>): (a: seq<Action>)
    ensures 3 <= |a| <= 5
    ensures a[0] == SetLoading(true) && a[|a| - 1] == SetLoading(false)
    ensures forall i :: 1 <= i < |a| - 1 ==> !a[i].SetLoading?
    ensures SetJoined(true) in a <==> join.JoinOk?
    ensures SetError(JoinError) in a <==> !join.JoinOk?
  {
    [SetLoading(true)]
    + (if join.JoinOk? then AcceptedActions(history, users) else [SetError(JoinError)])
    + [SetLoading(false)]
  }

  /** Appending three pieces after `a` one by one is appending them together. */
  lemma AppendThree<T>(a: seq<T>, b: seq<T>, m: seq<T>, c: seq<T>)
    ensures a + b + m + c == a + (b + m + c)
  {
  }

  /**
   * `joinChat` sets `loading` before anything else and clears it last, on
   * every path, so every state in between has `loading` set.
   */
  lemma {:induction false} JoinLoadingBracket(
    state: ChatState,
    join: JoinResponse,
    history: FetchResult<seq<ChatMessage>>,
    users: FetchResult<seq<OnlineUser>>)
    ensures var actions := JoinActions(join, history, users);
      && (forall k :: 1 <= k < |actions| ==> Replay(state, actions[..k]).loading)
      && !Replay(state, actions).loading
  {
    var actions := JoinActions(join, history, users);
    forall k | 1 <= k < |actions|
      ensures Replay(state, actions[..k]).loading
    {
      LoadingStaysSet(state, actions, k);
    }
  }

  /** Induction step for `JoinLoadingBracket`: nothing before the last action clears `loading`. */
  lemma {:induction false} LoadingStaysSet(state: ChatState, actions: seq<Action>, k: nat)
    requires 1 <= k < |actions|
    requires actions[0] == SetLoading(true)
    requires forall i :: 1 <= i < |actions| - 1 ==> !actions[i].SetLoading?
    ensures Replay(state, actions[..k]).loading
  {
    var prefix := actions[..k];
    assert prefix[..k - 1] == actions[..k - 1];
    if k > 1 {
      LoadingStaysSet(state, actions, k - 1);
    } else {
      assert prefix[..0] == [];
    }
  }

  /**
   * What `joinChat` leaves behind: `hasJoined` is set only by an OK answer, a
   * failure sets the join error and leaves `hasJoined` as it was, `loading` ends
   * cleared, and on success the history replaces the message log.
   */
  lemma JoinOutcome(
    state: ChatState,
    join: JoinResponse,
    history: FetchResult<seq<ChatMessage>>,
    users: FetchResult<seq<OnlineUser>>)
    ensures var r := Replay(state, JoinActions(join, history, users));
      && r.hasJoined == (join.JoinOk? || state.hasJoined)
      && r.error == (if join.JoinOk? then state.error else Some(JoinError))
      && !r.loading
      && r.isConnected == state.isConnected
      && r.messages == (if join.JoinOk? && history.Fetched? then history.payload.GetOr([]) else state.messages)
  {
    var actions := JoinActions(join, history, users);
    var middle := if join.JoinOk? then AcceptedActions(history, users) else [SetError(JoinError)];
    ReplayAppend(state, [SetLoading(true)] + middle, [SetLoading(false)]);
    ReplayAppend(state, [SetLoading(true)], middle);
    var s1 := Replay(state, [SetLoading(true)]);
    assert [SetLoading(true)][..0] == [];
    if join.JoinOk? {
      ReplayAppend(s1, [SetJoined(true)] + LoadMessagesActions(history), LoadOnlineUsersActions(users));
      ReplayAppend(s1, [SetJoined(true)], LoadMessagesActions(history));
      assert [SetJoined(true)][..0] == [];
      var s2 := Replay(s1, [SetJoined(true)]);
      var s3 := Replay(s2, LoadMessagesActions(history));
      assert LoadMessagesActions(history) != [] ==> LoadMessagesActions(history)[..0] == [];
      assert LoadOnlineUsersActions(users) != [] ==> LoadOnlineUsersActions(users)[..0] == [];
    } else {
      assert [SetError(JoinError)][..0] == [];
    }
  }

  /**
   * `!token` in the controllers: a missing token (`null`) and the empty
   * string are both falsy, so only a non-empty token lets a request go out.
   */
  predicate TokenPresent(token: Option<string>) {
    token.Some? && token.value != ""
  }

  /**
   * The provider: the reducer's state together with what the rest of the
   * program sees of it: the token read from local storage, whether the Echo
   * client exists, the channels Echo listens on, every action dispatched and
   * every request sent.
   */
  class ChatProvider {
    var state: ChatState
    var token: Option<string>
    var echoReady: bool
    var channels: set<string>
    var dispatched: seq<Action>
    var requests: seq<Request>

    /** `useReducer(chatReducer, initialState)` with the token found in local storage. */
    constructor (token: Option<string>, echoReady: bool)
      ensures state == InitialState
      ensures state.messages == [] && state.onlineUsers == [] && !state.isConnected
      ensures !state.loading && state.error == None && !state.hasJoined
      ensures this.token == token && this.echoReady == echoReady
      ensures channels == {} && dispatched == [] && requests == []
    {
      state := InitialState;
      this.token := token;
      this.echoReady := echoReady;
      channels := {};
      dispatched := [];
      requests := [];
    }

    /** `dispatch(action)`. */
    method Dispatch(action: Action)
      modifies this`state, this`dispatched
      ensures dispatched == old(dispatched) + [action]
      ensures state == ChatReducer(old(state), action)
    {
      state := ChatReducer(state, action);
      dispatched := dispatched + [action];
    }

    /** `loadMessages`: no-op without a token; otherwise GET the history and install it on success. */
    method LoadMessages(result: FetchResult<seq<ChatMessage>>)
      modifies this`state, this`dispatched, this`requests
      ensures !TokenPresent(old(token)) ==> state == old(state) && dispatched == old(dispatched) && requests == old(requests)
      ensures TokenPresent(old(token)) ==>
        && requests == old(requests) + [MessagesRequest]
        && dispatched == old(dispatched) + LoadMessagesActions(result)
        && state == old(state).(messages := if result.Fetched? then result.payload.GetOr([]) else old(state.messages))
    {
      if !TokenPresent(token) {
        return;
      }
      requests := requests + [MessagesRequest];
      if result.Fetched? {
        Dispatch(SetMessages(result.payload.GetOr([])));
      }
    }

    /** `loadOnlineUsers`: no-op without a token; otherwise GET the users and install them on success. */
    method LoadOnlineUsers(result: FetchResult<seq<OnlineUser>>)
      modifies this`state, this`dispatched, this`requests
      ensures !TokenPresent(old(token)) ==> state == old(state) && dispatched == old(dispatched) && requests == old(requests)
      ensures TokenPresent(old(token)) ==>
        && requests == old(requests) + [OnlineUsersRequest]
        && dispatched == old(dispatched) + LoadOnlineUsersActions(result)
        && state == old(state).(onlineUsers := if result.Fetched? then result.payload.GetOr([]) else old(state.onlineUsers))
    {
      if !TokenPresent(token) {
        return;
      }
      requests := requests + [OnlineUsersRequest];
      if result.Fetched? {
        Dispatch(SetOnlineUsers(result.payload.GetOr([])));
      }
    }

    /**
     * The `response.ok` branch of `joinChat`: `hasJoined` is set, Echo (if
     * present) starts listening on `chat.<room_id>`, then the history and the
     * online users are loaded, in that order.
     */
    method JoinAccepted(
      roomId: string,
      history: FetchResult<seq<ChatMessage>>,
      users: FetchResult<seq<OnlineUser>>)
      requires TokenPresent(token)
      modifies this`state, this`dispatched, this`requests, this`channels
      ensures dispatched == old(dispatched) + AcceptedActions(history, users)
      ensures requests == old(requests) + [MessagesRequest, OnlineUsersRequest]
      ensures channels == (if echoReady then old(channels) + {"chat." + roomId} else old(channels))
      ensures state == old(state).(
        hasJoined := true,
        messages := if history.Fetched? then history.payload.GetOr([]) else old(state.messages),
        onlineUsers := if users.Fetched? then users.payload.GetOr([]) else old(state.onlineUsers))
    {
      Dispatch(SetJoined(true));
      if echoReady {
        channels := channels + {"chat." + roomId};
      }
      LoadMessages(history);
      LoadOnlineUsers(users);
      AppendThree(old(dispatched), [SetJoined(true)], LoadMessagesActions(history), LoadOnlineUsersActions(users));
    }

    /**
     * `joinChat`: without a token nothing happens. Otherwise `loading` is set,
     * the join request goes out, and on an OK answer `hasJoined` is set, Echo (if
     * present) starts listening on `chat.<room_id>`, and the history and the
     * online users are loaded; on any failure the join error is recorded.
     * `loading` is cleared on every path.
     */
    method JoinChat(
      join: JoinResponse,
      history: FetchResult<seq<ChatMessage>>,
      users: FetchResult<seq<OnlineUser>>)
      modifies this`state, this`dispatched, this`requests, this`channels
      ensures !TokenPresent(old(token)) ==>
        state == old(state) && dispatched == old(dispatched) && requests == old(requests) && channels == old(channels)
      ensures TokenPresent(old(token)) ==> dispatched == old(dispatched) + JoinActions(join, history, users)
      ensures TokenPresent(old(token)) && join.JoinOk? ==>
        && requests == old(requests) + [JoinRequest, MessagesRequest, OnlineUsersRequest]
        && channels == (if echoReady then old(channels) + {"chat." + join.roomId} else old(channels))
        && state == old(state).(
             loading := false,
             hasJoined := true,
             messages := if history.Fetched? then history.payload.GetOr([]) else old(state.messages),
             onlineUsers := if users.Fetched? then users.payload.GetOr([]) else old(state.onlineUsers))
      ensures TokenPresent(old(token)) && !join.JoinOk? ==>
        && requests == old(requests) + [JoinRequest]
        && channels == old(channels)
        && state == old(state).(loading := false, error := Some(JoinError))
    {
      if !TokenPresent(token) {
        return;
      }
      Dispatch(SetLoading(true));
      requests := requests + [JoinRequest];
      ghost var started := dispatched;
      ghost var middle := if join.JoinOk? then AcceptedActions(history, users) else [SetError(JoinError)];
      match join {
        case JoinOk(roomId) =>
          JoinAccepted(roomId, history, users);
        case _ =>
          Dispatch(SetError(JoinError));
      }
      assert dispatched == started + middle;
      Dispatch(SetLoading(false));
      AppendThree(old(dispatched), [SetLoading(true)], middle, [SetLoading(false)]);
      assert JoinActions(join, history, users) == [SetLoading(true)] + middle + [SetLoading(false)];
    }

    /**
     * `leaveChat`: without a token nothing happens. Otherwise the leave request
     * goes out; if it returns, `hasJoined` is cleared and Echo (if present)
     * leaves the fixed channel `chat.1`, whichever room was joined. If it throws,
     * nothing else changes.
     */
    method LeaveChat(leave: LeaveResponse)
      modifies this`state, this`dispatched, this`requests, this`channels
      ensures !TokenPresent(old(token)) ==>
        state == old(state) && dispatched == old(dispatched) && requests == old(requests) && channels == old(channels)
      ensures TokenPresent(old(token)) ==> requests == old(requests) + [LeaveRequest]
      ensures TokenPresent(old(token)) && leave == LeaveReturned ==>
        && dispatched == old(dispatched) + [SetJoined(false)]
        && state == old(state).(hasJoined := false)
        && channels == (if echoReady then old(channels) - {"chat.1"} else old(channels))
      ensures TokenPresent(old(token)) && leave == LeaveThrows ==>
        state == old(state) && dispatched == old(dispatched) && channels == old(channels)
    {
      if !TokenPresent(token) {
        return;
      }
      requests := requests + [LeaveRequest];
      if leave == LeaveReturned {
        Dispatch(SetJoined(false));
        if echoReady {
          channels := channels - {"chat.1"};
        }
      }
    }

    /**
     * `sendMessage`: nothing happens without a token or before joining. A message
     * that fails validation records the validation error and is not sent.
     * Otherwise it is posted once; a failed post records the send error. The
     * message log is never touched here: the message arrives through the
     * `ChatMessageSent` event like everyone else's.
     */
    method SendMessage(message: JsValue, send: SendResponse)
      modifies this`state, this`dispatched, this`requests
      ensures state.messages == old(state.messages)
      ensures !TokenPresent(old(token)) || !old(state.hasJoined) ==>
        state == old(state) && dispatched == old(dispatched) && requests == old(requests)
      ensures TokenPresent(old(token)) && old(state.hasJoined) && ValidateMessage(message).Invalid? ==>
        && requests == old(requests)
        && dispatched == old(dispatched) + [SetError(ValidateMessage(message).error)]
        && state == old(state).(error := Some(ValidateMessage(message).error))
      ensures TokenPresent(old(token)) && old(state.hasJoined) && ValidateMessage(message).Valid? ==>
        && requests == old(requests) + [SendMessageRequest(message.text)]
        && dispatched == old(dispatched) + (if send == SendOk then [] else [SetError(MessageError)])
        && state == (if send == SendOk then old(state) else old(state).(error := Some(MessageError)))
    {
      if !TokenPresent(token) || !state.hasJoined {
        return;
      }
      var validation := ValidateMessage(message);
      if validation.Invalid? {
        Dispatch(SetError(validation.error));
        return;
      }
      requests := requests + [SendMessageRequest(message.text)];
      if send != SendOk {
        Dispatch(SetError(MessageError));
      }
    }

    /** `updateOnlineStatus`: a heartbeat post when a token is present; the state is not touched. */
    method UpdateOnlineStatus()
      modifies this`requests
      ensures requests == old(requests) + (if TokenPresent(old(token)) then [UpdateStatusRequest] else [])
    {
      if TokenPresent(token) {
        requests := requests + [UpdateStatusRequest];
      }
    }

    /** The `ChatMessageSent` listener: the pushed message is appended to the log. */
    method OnChatMessageSent(channel: string, message: ChatMessage)
      requires channel in channels
      modifies this`state, this`dispatched
      ensures dispatched == old(dispatched) + [AddMessage(message)]
      ensures state == old(state).(messages := old(state.messages) + [message])
    {
      Dispatch(AddMessage(message));
    }

    /** The `UserJoinedChat` and `UserLeftChat` listeners only log: the online users are not touched. */
    method OnPresenceEvent(channel: string, user: OnlineUser)
      requires channel in channels
      ensures state.onlineUsers == old(state.onlineUsers)
    {
    }
  }

  /**
   * Joining room 7 and then leaving leaves Echo still listening on `chat.7`,
   * because `leaveChat` always leaves `chat.1`.
   */
  method LeaveAfterJoinKeepsRoomChannel(token: string, history: FetchResult<seq<ChatMessage>>, users: FetchResult<seq<OnlineUser>>)
    returns (joined: bool, listening: set<string>)
    requires token != ""
    ensures !joined && listening == {"chat.7"}
  {
    var provider := new ChatProvider(Some(token), true);
    provider.JoinChat(JoinOk("7"), history, users);
    assert provider.state.hasJoined;
    assert "chat." + "7" == "chat.7";
    assert provider.channels == {"chat.7"};
    provider.LeaveChat(LeaveReturned);
    assert !provider.state.hasJoined;
    assert "chat.7"[5] != "chat.1"[5];
    assert provider.channels == {"chat.7"};
    joined, listening := provider.state.hasJoined, provider.channels;
  }
}
