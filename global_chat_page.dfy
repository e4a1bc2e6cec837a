/** The live chat of src/pages/GlobalChatPage.tsx: the message log loaded over
    REST and extended by WebSocket frames, the connection flag, the sockets
    `connectWs` opens with their handlers, the reconnect timers `onclose` arms,
    the effect cleanup, and `sendMessage`.

    Every `new WebSocket` is kept in `sockets` (its position is its identity),
    so the handlers of a socket that `wsRef` no longer points at can still be
    delivered; each pending `setTimeout(connectWs, 3000)` is a timer id mapped
    to the user its closure captured. Browser events are methods whose
    preconditions are the ready states in which the browser fires them. The
    pure step functions below are the specification; `ChatPage` is the page
    whose methods perform them on its fields. */
module GlobalChatPage {
  import opened Common
  import opened Api

  const DEFAULT_HOST := "localhost:3000"
  /** `'ws://localhost:3000'`. */
  const DEFAULT_WS_URL := "ws://" + DEFAULT_HOST
  const RECONNECT_DELAY_MS := 3000
  const HISTORY_LIMIT := 100
  const HISTORY_PATH := "/chat/messages?limit=100"
  const SOCKET_PATH := "/ws/chat?user_id="
  const NAME_PARAM := "&user_name="

  /** A chat message as the server sends it; `id`, `created_at` and `time` may be absent. */
  datatype ChatMsg = ChatMsg(id: Option<int>, userId: int, userName: string, message: string,
                             createdAt: Option<string>, time: Option<string>)

  /** `import.meta.env.VITE_WS_URL` and the browser's `encodeURIComponent`. */
  datatype Env = Env(wsUrl: Option<string>, encodeURIComponent: string -> string)

  // ---------------------------------------------------------------------------
  // URLs

  /** `import.meta.env.VITE_WS_URL || 'ws://localhost:3000'`. */
  function WsBase(env: Env): (r: string)
    ensures r != ""
    ensures env.wsUrl.Some? && env.wsUrl.value != "" ==> r == env.wsUrl.value
    ensures env.wsUrl.None? || env.wsUrl.value == "" ==> r == DEFAULT_WS_URL
  {
    OptOrElse(env.wsUrl, DEFAULT_WS_URL)
  }

  /** `wsUrl.replace('ws://', 'http://').replace('wss://', 'https://')`. */
  function HttpBase(wsUrl: string): string
  {
    ReplaceFirst(ReplaceFirst(wsUrl, "ws://", "http://"), "wss://", "https://")
  }

  /** The address of the history request. */
  function HistoryUrl(env: Env): string
  {
    HttpBase(WsBase(env)) + HISTORY_PATH
  }

  /** A plain `ws://` base becomes the matching `http://` base. */
  lemma HttpBaseOfWs(host: string)
    requires !Contains(host, "ws://") && !Contains(host, "wss://")
    ensures HttpBase("ws://" + host) == "http://" + host
  {
    ReplaceFirstAtStart("ws://", host, "http://");
    FirstCharAbsentFromPrefix("http://", host, "wss://");
    OccursInConcat("http://", host, "wss://");
    ReplaceFirstAbsent("http://" + host, "wss://", "https://");
  }

  /** No `ws://` starts inside a leading `wss://`. */
  lemma WssPrefixHoldsNoWs(host: string)
    ensures forall j :: 0 <= j < 6 ==> !OccursAt("wss://" + host, "ws://", j)
  {
    var s := "wss://" + host;
    forall j | 0 <= j < 6
      ensures !OccursAt(s, "ws://", j)
    {
      if j + 5 <= |s| {
        if j == 0 {
          assert s[j..j + 5][2] == s[2] == 's';
        } else {
          assert s[j..j + 5][0] == s[j] == "wss://"[j];
        }
      }
    }
  }

  /** A secure `wss://` base becomes the matching `https://` base. */
  lemma HttpBaseOfWss(host: string)
    requires !Contains(host, "ws://") && !Contains(host, "wss://")
    ensures HttpBase("wss://" + host) == "https://" + host
  {
    WssPrefixHoldsNoWs(host);
    OccursInConcat("wss://", host, "ws://");
    ReplaceFirstAbsent("wss://" + host, "ws://", "http://");
    ReplaceFirstAtStart("wss://", host, "https://");
  }

  /** The default base has neither scheme marker after its own scheme. */
  lemma LocalHostHasNoScheme()
    ensures !Contains(DEFAULT_HOST, "ws://") && !Contains(DEFAULT_HOST, "wss://")
  {
    var host := DEFAULT_HOST;
    assert 'w' !in host;
    FirstCharAbsent(host, "ws://");
    FirstCharAbsent(host, "wss://");
  }

  /** Without VITE_WS_URL the history comes from the local server's REST port. */
  lemma DefaultHistoryUrl(env: Env)
    requires env.wsUrl.None? || env.wsUrl.value == ""
    ensures HistoryUrl(env) == "http://" + DEFAULT_HOST + HISTORY_PATH
  {
    LocalHostHasNoScheme();
    HttpBaseOfWs(DEFAULT_HOST);
  }

  /** The address `connectWs` opens for a user. */
  function SocketUrl(env: Env, u: User): string
  {
    WsBase(env) + SOCKET_PATH + IntToDecimal(u.id) + NAME_PARAM + env.encodeURIComponent(u.name)
  }

  /** The socket address starts with the base and the chat path, carries the
      user's id in decimal, readable back as that id, and ends with the
      encoded user name. */
  lemma SocketUrlCarriesUser(env: Env, u: User)
    ensures var url := SocketUrl(env, u);
            var prefix := WsBase(env) + SOCKET_PATH;
            var digits := IntToDecimal(u.id);
            var name := env.encodeURIComponent(u.name);
            |prefix| + |digits| + |NAME_PARAM| + |name| == |url|
            && url[..|prefix|] == prefix
            && ParseInt(url[|prefix|..|prefix| + |digits|]) == u.id
            && url[|url| - |name|..] == name
  {
    var url := SocketUrl(env, u);
    var prefix := WsBase(env) + SOCKET_PATH;
    var digits := IntToDecimal(u.id);
    var name := env.encodeURIComponent(u.name);
    assert url == prefix + digits + NAME_PARAM + name;
    assert url[|prefix|..|prefix| + |digits|] == digits;
    IntToDecimalRoundTrip(u.id);
  }

  // ---------------------------------------------------------------------------
  // Page state

  datatype ReadyState = Connecting | Open | Closing | Closed

  /** One `new WebSocket(url)`: the user its handlers were built for, its ready
      state, and the `{ message }` frames sent on it (as their message text). */
  datatype Socket = Socket(url: string, user: User, state: ReadyState, sent: seq<string>)

  /** The outcome of the history fetch: the parsed body, or an exception from
      `fetch` or `res.json()` (a `null` body throws when `data.success` is read). */
  datatype HistoryResult = HistoryBody(success: bool, data: Option<seq<ChatMsg>>) | HistoryFailed

  /** The page's state: the three `useState` values, every socket created,
      `wsRef`, the pending reconnect timers, `reconnectTimerRef`, and the next timer id. */
  datatype ChatState = ChatState(messages: seq<ChatMsg>, input: string, isConnected: bool,
                                 sockets: seq<Socket>, wsRef: Option<nat>,
                                 timers: map<nat, User>, timerRef: Option<nat>, nextTimer: nat)

  const INITIAL := ChatState([], "", false, [], None, map[], None, 1)

  /** `wsRef` names a created socket and every timer id has been handed out. */
  predicate Valid(s: ChatState)
  {
    (s.wsRef.Some? ==> s.wsRef.value < |s.sockets|)
    && (forall t :: t in s.timers ==> t < s.nextTimer)
    && (s.timerRef.Some? ==> s.timerRef.value < s.nextTimer)
  }

  /** `connectWs`: a new connecting socket for the user becomes `wsRef`. */
  function Connect(s: ChatState, env: Env, u: User): (t: ChatState)
    requires Valid(s)
    ensures Valid(t)
    ensures t.sockets == s.sockets + [Socket(SocketUrl(env, u), u, Connecting, [])]
    ensures t.wsRef == Some(|s.sockets|)
    ensures t.messages == s.messages && t.input == s.input && t.isConnected == s.isConnected
    ensures t.timers == s.timers && t.timerRef == s.timerRef && t.nextTimer == s.nextTimer
  {
    s.(sockets := s.sockets + [Socket(SocketUrl(env, u), u, Connecting, [])], wsRef := Some(|s.sockets|))
  }

  /** The history fetch: a body with `success` and `data` replaces the whole
      log (an empty array included); anything else leaves the state alone. */
  function ApplyHistory(s: ChatState, r: HistoryResult): (t: ChatState)
    ensures r.HistoryBody? && r.success && r.data.Some? ==> t == s.(messages := r.data.value)
    ensures !(r.HistoryBody? && r.success && r.data.Some?) ==> t == s
  {
    if r.HistoryBody? && r.success && r.data.Some? then s.(messages := r.data.value) else s
  }

  /** The effect on `[user]`: no socket without a user, else `connectWs`. */
  function Effect(s: ChatState, env: Env, user: Option<User>): (t: ChatState)
    requires Valid(s)
    ensures Valid(t)
    ensures user.None? ==> t == s
    ensures user.Some? ==> t == Connect(s, env, user.value)
  {
    if user.None? then s else Connect(s, env, user.value)
  }

  /** `onopen`: the flag goes up, whichever socket opened. */
  function OnOpen(s: ChatState, i: nat): (t: ChatState)
    requires Valid(s) && i < |s.sockets| && s.sockets[i].state == Connecting
    ensures Valid(t) && t.isConnected
    ensures |t.sockets| == |s.sockets| && t.sockets[i].state == Open
    ensures forall k :: 0 <= k < |s.sockets| && k != i ==> t.sockets[k] == s.sockets[k]
    ensures t.messages == s.messages && t.timers == s.timers && t.wsRef == s.wsRef
    ensures t.input == s.input && t.timerRef == s.timerRef && t.nextTimer == s.nextTimer
  {
    s.(sockets := s.sockets[i := s.sockets[i].(state := Open)], isConnected := true)
  }

  /** `onmessage`: a frame that parses goes at the end of the log; one that
      does not changes nothing at all. */
  function OnMessage(s: ChatState, i: nat, frame: Option<ChatMsg>): (t: ChatState)
    requires i < |s.sockets| && s.sockets[i].state == Open
    ensures frame.Some? ==> t == s.(messages := s.messages + [frame.value])
    ensures frame.None? ==> t == s
  {
    if frame.Some? then s.(messages := s.messages + [frame.value]) else s
  }

  /** `ws.close()`: a connecting or open socket starts closing; otherwise nothing happens. */
  function CloseSocket(s: ChatState, i: nat): (t: ChatState)
    requires i < |s.sockets|
    ensures |t.sockets| == |s.sockets|
    ensures t.sockets[i].state == if s.sockets[i].state in {Connecting, Open} then Closing else s.sockets[i].state
    ensures t.sockets[i].user == s.sockets[i].user
    ensures forall k :: 0 <= k < |s.sockets| && k != i ==> t.sockets[k] == s.sockets[k]
    ensures t == s.(sockets := t.sockets)
  {
    if s.sockets[i].state in {Connecting, Open} then s.(sockets := s.sockets[i := s.sockets[i].(state := Closing)])
    else s
  }

  /** `onerror`: only closes its own socket; the flag, the log and the timers stay. */
  function OnError(s: ChatState, i: nat): (t: ChatState)
    requires Valid(s) && i < |s.sockets| && s.sockets[i].state != Closed
    ensures Valid(t)
    ensures t == CloseSocket(s, i)
    ensures t.isConnected == s.isConnected && t.timers == s.timers && t.messages == s.messages
  {
    CloseSocket(s, i)
  }

  /** `onclose`: the flag goes down and a fresh reconnect timer for the
      socket's user is armed and stored in `reconnectTimerRef`, without clearing
      any timer armed before. */
  function OnClose(s: ChatState, i: nat): (t: ChatState)
    requires Valid(s) && i < |s.sockets| && s.sockets[i].state != Closed
    ensures Valid(t) && !t.isConnected
    ensures |t.sockets| == |s.sockets| && t.sockets[i].state == Closed
    ensures forall k :: 0 <= k < |s.sockets| && k != i ==> t.sockets[k] == s.sockets[k]
    ensures s.nextTimer !in s.timers && t.timers == s.timers[s.nextTimer := s.sockets[i].user]
    ensures |t.timers| == |s.timers| + 1
    ensures t.timerRef == Some(s.nextTimer)
    ensures t.messages == s.messages && t.input == s.input && t.wsRef == s.wsRef
  {
    s.(sockets := s.sockets[i := s.sockets[i].(state := Closed)], isConnected := false,
       timers := s.timers[s.nextTimer := s.sockets[i].user], timerRef := Some(s.nextTimer),
       nextTimer := s.nextTimer + 1)
  }

  /** A reconnect timer fires: it is no longer pending and `connectWs` runs for its user. */
  function TimerFires(s: ChatState, env: Env, timer: nat): (t: ChatState)
    requires Valid(s) && timer in s.timers
    ensures Valid(t)
    ensures t == Connect(s.(timers := s.timers - {timer}), env, s.timers[timer])
  {
    Connect(s.(timers := s.timers - {timer}), env, s.timers[timer])
  }

  /** The effect cleanup: the timer in `reconnectTimerRef` is cleared, then the
      socket in `wsRef` is closed. Later timers and the sockets' handlers stay. */
  function Cleanup(s: ChatState): (t: ChatState)
    requires Valid(s)
    ensures Valid(t)
    ensures t.timers == if s.timerRef.Some? then s.timers - {s.timerRef.value} else s.timers
    ensures s.wsRef.None? ==> t.sockets == s.sockets
    ensures s.wsRef.Some? ==> t.sockets == CloseSocket(s, s.wsRef.value).sockets
    ensures t.messages == s.messages && t.input == s.input && t.isConnected == s.isConnected
    ensures t.wsRef == s.wsRef && t.timerRef == s.timerRef && t.nextTimer == s.nextTimer
  {
    var cleared := if s.timerRef.Some? then s.(timers := s.timers - {s.timerRef.value}) else s;
    if s.wsRef.Some? then CloseSocket(cleared, s.wsRef.value) else cleared
  }

  /** The guard of `sendMessage`: text after trimming and an open socket in `wsRef`. */
  predicate CanSend(s: ChatState)
  {
    Trim(s.input) != "" && s.wsRef.Some? && s.wsRef.value < |s.sockets|
    && s.sockets[s.wsRef.value].state == Open
  }

  /** `sendMessage`: when the guard holds, exactly one frame with the trimmed
      text goes out on `wsRef` and the input is cleared; otherwise nothing. The
      log is never extended locally: the message appears when the server echoes it. */
  function Send(s: ChatState): (t: ChatState)
    ensures t.messages == s.messages && t.isConnected == s.isConnected && t.timers == s.timers
    ensures t.wsRef == s.wsRef && t.timerRef == s.timerRef && t.nextTimer == s.nextTimer
    ensures !CanSend(s) ==> t == s
    ensures CanSend(s) ==>
              var i := s.wsRef.value;
              t.input == "" && |t.sockets| == |s.sockets|
              && t.sockets[i] == s.sockets[i].(sent := s.sockets[i].sent + [Trim(s.input)])
              && (forall k :: 0 <= k < |s.sockets| && k != i ==> t.sockets[k] == s.sockets[k])
  {
    if !CanSend(s) then s
    else
      var i := s.wsRef.value;
      s.(sockets := s.sockets[i := s.sockets[i].(sent := s.sockets[i].sent + [Trim(s.input)])], input := "")
  }

  // ---------------------------------------------------------------------------
  // Properties of event sequences

  /** The frames of a sequence that parse, in order. */
  function Kept(frames: seq<Option<ChatMsg>>): (r: seq<ChatMsg>)
    ensures |r| <= |frames|
    ensures forall m :: m in r <==> Some(m) in frames
  {
    if frames == [] then []
    else (if frames[0].Some? then [frames[0].value] else []) + Kept(frames[1..])
  }

  /** Each message is kept as often as it arrived as a parsed frame. */
  lemma {:induction false} KeptCounts(frames: seq<Option<ChatMsg>>, m: ChatMsg)
    ensures multiset(Kept(frames))[m] == multiset(frames)[Some(m)]
  {
    if frames != [] {
      KeptCounts(frames[1..], m);
      assert frames == [frames[0]] + frames[1..];
    }
  }

  /** Keeping the parsed frames distributes over concatenation, so they keep
      their arrival order. */
  lemma {:induction false} KeptConcat(a: seq<Option<ChatMsg>>, b: seq<Option<ChatMsg>>)
    ensures Kept(a + b) == Kept(a) + Kept(b)
  {
    if a == [] {
      assert a + b == b;
    } else {
      assert (a + b)[0] == a[0];
      assert (a + b)[1..] == a[1..] + b;
      KeptConcat(a[1..], b);
    }
  }

  /** `onmessage` for each frame of a sequence on one open socket. */
  function Deliver(s: ChatState, i: nat, frames: seq<Option<ChatMsg>>): (t: ChatState)
    requires i < |s.sockets| && s.sockets[i].state == Open
    ensures t.sockets == s.sockets
    decreases |frames|
  {
    if frames == [] then s else Deliver(OnMessage(s, i, frames[0]), i, frames[1..])
  }

  /** Frames append in arrival order after what the log held, dropping the
      unparsable ones; nothing but the log changes. */
  lemma {:induction false} DeliverAppends(s: ChatState, i: nat, frames: seq<Option<ChatMsg>>)
    requires i < |s.sockets| && s.sockets[i].state == Open
    ensures Deliver(s, i, frames) == s.(messages := s.messages + Kept(frames))
    decreases |frames|
  {
    if frames == [] {
      assert s.messages + [] == s.messages;
    } else {
      var s1 := OnMessage(s, i, frames[0]);
      DeliverAppends(s1, i, frames[1..]);
      var head := if frames[0].Some? then [frames[0].value] else [];
      assert s1.messages == s.messages + head;
      assert Kept(frames) == head + Kept(frames[1..]);
      assert s.messages + head + Kept(frames[1..]) == s.messages + Kept(frames);
    }
  }

  /** History that arrives before the frames: the log is the history followed
      by the frames that parse. */
  lemma HistoryThenFrames(s: ChatState, i: nat, h: seq<ChatMsg>, frames: seq<Option<ChatMsg>>)
    requires i < |s.sockets| && s.sockets[i].state == Open
    ensures Deliver(ApplyHistory(s, HistoryBody(true, Some(h))), i, frames).messages == h + Kept(frames)
  {
    DeliverAppends(ApplyHistory(s, HistoryBody(true, Some(h))), i, frames);
  }

  /** History that arrives after some frames replaces the log, so those frames
      are no longer shown. */
  lemma LateHistoryDropsFrames(s: ChatState, i: nat, h: seq<ChatMsg>, frames: seq<Option<ChatMsg>>)
    requires i < |s.sockets| && s.sockets[i].state == Open
    ensures ApplyHistory(Deliver(s, i, frames), HistoryBody(true, Some(h))).messages == h
  {
  }

  /** A dropped connection recovers: `onclose` arms a timer for the socket's
      user, and when it fires a new socket to the same address becomes
      `wsRef`; once it opens the page is connected again. */
  lemma DropThenReconnect(s: ChatState, env: Env, i: nat)
    requires Valid(s) && i < |s.sockets| && s.sockets[i].state == Open
    requires s.sockets[i].url == SocketUrl(env, s.sockets[i].user)
    ensures var c := OnClose(s, i);
            !c.isConnected && s.nextTimer in c.timers
            && var r := TimerFires(c, env, s.nextTimer);
               r.wsRef == Some(|s.sockets|) && r.sockets[|s.sockets|] == s.sockets[i].(state := Connecting, sent := [])
               && s.nextTimer !in r.timers
               && OnOpen(r, |s.sockets|).isConnected
  {
    var c := OnClose(s, i);
    var r := TimerFires(c, env, s.nextTimer);
    assert r.sockets[|s.sockets|] == Socket(SocketUrl(env, s.sockets[i].user), s.sockets[i].user, Connecting, []);
  }

  /** Cleanup does not stop reconnecting: the socket it closes still has its
      `onclose`, which arms a new timer after the cleanup cleared the old one,
      and that timer opens another socket for the same user. */
  lemma CleanupStillReconnects(s: ChatState, env: Env)
    requires Valid(s) && s.wsRef.Some? && s.sockets[s.wsRef.value].state in {Connecting, Open}
    ensures var i := s.wsRef.value;
            var c := Cleanup(s);
            c.sockets[i].state == Closing
            && var d := OnClose(c, i);
               s.nextTimer in d.timers && d.timers[s.nextTimer] == s.sockets[i].user
               && TimerFires(d, env, s.nextTimer).sockets[|s.sockets|].user == s.sockets[i].user
  {
  }

  /** Two drops in a row leave two pending reconnects: each `onclose` adds a
      timer and none clears the other. */
  lemma TwoDropsTwoTimers(s: ChatState, i: nat, j: nat)
    requires Valid(s) && i < |s.sockets| && j < |s.sockets| && i != j
    requires s.sockets[i].state != Closed && s.sockets[j].state != Closed
    ensures |OnClose(OnClose(s, i), j).timers| == |s.timers| + 2
    ensures s.nextTimer in OnClose(OnClose(s, i), j).timers
  {
  }

  // ---------------------------------------------------------------------------
  // Display helpers

  /** `msg.time || msg.created_at`, when that is truthy. */
  function TimeSource(msg: ChatMsg): (r: Option<string>)
    ensures r.Some? ==> r.value != ""
    ensures msg.time.Some? && msg.time.value != "" ==> r == msg.time
    ensures (msg.time.None? || msg.time.value == "") && msg.createdAt.Some? && msg.createdAt.value != "" ==>
              r == msg.createdAt
    ensures (msg.time.None? || msg.time.value == "") && (msg.createdAt.None? || msg.createdAt.value == "") ==>
              r.None?
  {
    if msg.time.Some? && msg.time.value != "" then msg.time
    else if msg.createdAt.Some? && msg.createdAt.value != "" then msg.createdAt
    else None
  }

  /** `formatTime`, with the locale formatting of `toLocaleTimeString('id-ID')` as a parameter. */
  function FormatTime(msg: ChatMsg, localeTime: string -> string): (r: string)
    ensures TimeSource(msg).None? ==> r == ""
    ensures TimeSource(msg).Some? ==> r == localeTime(TimeSource(msg).value)
  {
    match TimeSource(msg)
    case None => ""
    case Some(t) => localeTime(t)
  }

  /** `msg.user_id === user?.id`. */
  predicate IsMine(msg: ChatMsg, user: Option<User>)
  {
    user.Some? && msg.userId == user.value.id
  }

  /** Nothing is mine before a user is known, and a message is mine for
      exactly the users whose id it carries, so at most one id sees it as its own. */
  lemma MineOnlyForAuthor(msg: ChatMsg, u: User, v: User)
    ensures !IsMine(msg, None)
    ensures IsMine(msg, Some(u)) <==> msg.userId == u.id
    ensures IsMine(msg, Some(u)) && IsMine(msg, Some(v)) ==> u.id == v.id
  {
  }

  // ---------------------------------------------------------------------------
  // The page

  class ChatPage {
    const env: Env
    var messages: seq<ChatMsg>
    var input: string
    var isConnected: bool
    var sockets: seq<Socket>
    var wsRef: Option<nat>
    var timers: map<nat, User>
    var timerRef: Option<nat>
    var nextTimer: nat

    function State(): ChatState
      reads this
    {
      ChatState(messages, input, isConnected, sockets, wsRef, timers, timerRef, nextTimer)
    }

    constructor (env: Env)
      ensures this.env == env && State() == INITIAL
    {
      this.env := env;
      messages, input, isConnected := [], "", false;
      sockets, wsRef, timers, timerRef, nextTimer := [], None, map[], None, 1;
    }

    /** `connectWs` for the user of the closure. */
    method ConnectWs(u: User)
      requires Valid(State())
      modifies this
      ensures State() == Connect(old(State()), env, u)
    {
      wsRef := Some(|sockets|);
      sockets := sockets + [Socket(SocketUrl(env, u), u, Connecting, [])];
    }

    /** `fetchHistory` of the mount effect: the address it asks, and the log it leaves. */
    method FetchHistory(r: HistoryResult) returns (url: string)
      modifies this
      ensures url == HistoryUrl(env)
      ensures State() == ApplyHistory(old(State()), r)
    {
      url := HttpBase(WsBase(env)) + HISTORY_PATH;
      if r.HistoryBody? && r.success && r.data.Some? {
        messages := r.data.value;
      }
    }

    /** The effect on `[user]`. */
    method RunEffect(user: Option<User>)
      requires Valid(State())
      modifies this
      ensures State() == Effect(old(State()), env, user)
    {
      if user.None? {
        return;
      }
      ConnectWs(user.value);
    }

    method SocketOpened(i: nat)
      requires Valid(State()) && i < |sockets| && sockets[i].state == Connecting
      modifies this
      ensures State() == OnOpen(old(State()), i)
    {
      sockets := sockets[i := sockets[i].(state := Open)];
      isConnected := true;
    }

    method FrameArrived(i: nat, frame: Option<ChatMsg>)
      requires i < |sockets| && sockets[i].state == Open
      modifies this
      ensures State() == OnMessage(old(State()), i, frame)
    {
      if frame.Some? {
        messages := messages + [frame.value];
      }
    }

    /** `ws.close()`. */
    method Close(i: nat)
      requires i < |sockets|
      modifies this
      ensures State() == CloseSocket(old(State()), i)
    {
      if sockets[i].state in {Connecting, Open} {
        sockets := sockets[i := sockets[i].(state := Closing)];
      }
    }

    method SocketErred(i: nat)
      requires Valid(State()) && i < |sockets| && sockets[i].state != Closed
      modifies this
      ensures State() == OnError(old(State()), i)
    {
      Close(i);
    }

    method SocketClosed(i: nat)
      requires Valid(State()) && i < |sockets| && sockets[i].state != Closed
      modifies this
      ensures State() == OnClose(old(State()), i)
    {
      var u := sockets[i].user;
      sockets := sockets[i := sockets[i].(state := Closed)];
      isConnected := false;
      timers := timers[nextTimer := u];
      timerRef := Some(nextTimer);
      nextTimer := nextTimer + 1;
    }

    method ReconnectTimerFired(timer: nat)
      requires Valid(State()) && timer in timers
      modifies this
      ensures State() == TimerFires(old(State()), env, timer)
    {
      var u := timers[timer];
      timers := timers - {timer};
      ConnectWs(u);
    }

    /** The cleanup the effect returns. */
    method RunCleanup()
      requires Valid(State())
      modifies this
      ensures State() == Cleanup(old(State()))
    {
      if timerRef.Some? {
        timers := timers - {timerRef.value};
      }
      if wsRef.Some? {
        Close(wsRef.value);
      }
    }

    /** Typing in the box: only the input changes. */
    method TypeInput(text: string)
      modifies this
      ensures State() == old(State()).(input := text)
    {
      input := text;
    }

    method SendMessage()
      modifies this
      ensures State() == Send(old(State()))
    {
      var text := Trim(input);
      if text == "" || wsRef.None? || wsRef.value >= |sockets| || sockets[wsRef.value].state != Open {
        return;
      }
      var i := wsRef.value;
      sockets := sockets[i := sockets[i].(sent := sockets[i].sent + [text])];
      input := "";
    }
  }
}
