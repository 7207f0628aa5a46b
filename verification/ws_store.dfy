/** The realtime store (`wsStore`): one immutable state record driven by the
    socket's lifecycle callbacks, the inbound-frame dispatcher, outbound
    sends with optimistic tracking, and a few small mutators.

    The socket itself is abstract. `connect` reports the socket it would
    create, the lifecycle callbacks arrive as events, and a `Link` says
    what the current socket answers when the store uses it: whether its
    ready state is OPEN and whether `send` throws. Client ids and
    timestamps are supplied by the caller. */
module WsStore {
  import opened Optional
  import opened JsValue

  type SocketId = nat
  type ClientId = string

  /** The caller's membership in a watch party. Every field is whatever the
      server sent, so each is a JavaScript primitive. */
  datatype Party = Party(threadId: Scalar, fileId: Scalar, isOwner: Scalar)

  const NoParty: Party := Party(Null, Null, Bool(false))

  datatype SendStatus = Sending | Sent | Failed

  /** The payload fields of an outbound frame that the store reads. */
  datatype OutPayload = OutPayload(threadId: Scalar, content: Scalar)

  /** An outbound frame `{type, payload?}`. */
  datatype OutFrame = OutFrame(kind: string, payload: Option<OutPayload>)

  /** A locally sent chat message awaiting the server's broadcast echo. */
  datatype TrackedMessage = TrackedMessage(clientId: ClientId, status: SendStatus, payload: OutPayload, timestamp: int)

  datatype TranscodeEntry = TranscodeEntry(url: Scalar, completed: bool)

  /** Payload of `active_party_info` and `joined_watch_party_success`. */
  datatype PartyInfo = PartyInfo(threadId: Scalar, fileId: Scalar, isOwner: Scalar)

  /** Payload of `new_chat_message`; `authorId` is `author?.id`. */
  datatype ChatInfo = ChatInfo(threadId: Scalar, content: Scalar, authorId: Scalar)

  /** Payload of `transcoding_complete`. */
  datatype TranscodeInfo = TranscodeInfo(fileId: Scalar, url: Scalar)

  const KnownTypes: set<string> := {
    "authenticated", "active_party_info", "joined_watch_party_success", "watch_party_left",
    "user_banned", "party_list_updated", "ownership_transferred", "ownership_revoked",
    "party_file_changed", "new_chat_message", "transcoding_complete"
  }

  /** A frame type the dispatcher has no case for. */
  type OtherType = s: string | s !in KnownTypes witness ""

  /** A parsed inbound frame, one constructor per recognised `type`.
      `None` in a payload position means the frame had no payload object, so
      reading a field of it throws; `UserBanned` and `PartyListUpdated` read
      their field with `?.`, so there a missing payload is just `Undefined`. */
  datatype Inbound =
    | Authenticated(user: Option<Scalar>)
    | ActivePartyInfo(info: Option<PartyInfo>)
    | JoinedWatchPartySuccess(info: Option<PartyInfo>)
    | WatchPartyLeft
    | UserBanned(bannedUserId: Scalar)
    | PartyListUpdated(newFileId: Scalar)
    | OwnershipTransferred(thread: Option<Scalar>)
    | OwnershipRevoked(thread: Option<Scalar>)
    | PartyFileChanged(newFile: Option<Scalar>)
    | NewChatMessage(chat: Option<ChatInfo>)
    | TranscodingComplete(transcode: Option<TranscodeInfo>)
    | Other(kind: OtherType)

  /** The store's state. `pendingMessages` is kept in insertion order, the
      order `Object.values` lists it in (client ids contain `-`, so none is an
      array index); `transcodingStatus` is keyed by property-key strings. */
  datatype State = State(
    ws: Option<SocketId>,
    isConnected: bool,
    isAuthenticated: bool,
    userId: Scalar,
    lastMessage: Option<Inbound>,
    party: Party,
    transcodingStatus: map<string, TranscodeEntry>,
    pendingMessages: seq<TrackedMessage>)

  const Initial: State := State(None, false, false, Null, None, NoParty, map[], [])

  /** What the current socket answers when the store uses it. */
  datatype Link = Link(open: bool, sendThrows: bool)

  /** What the store asks of the outside world. */
  datatype Effect = OpenSocket(socket: SocketId) | Transmit(frame: OutFrame) | CloseSocket(socket: SocketId)

  // ---------------------------------------------------------------------
  // The pending-message dictionary
  // ---------------------------------------------------------------------

  predicate UniqueIds(ps: seq<TrackedMessage>) {
    forall i, j :: 0 <= i < j < |ps| ==> ps[i].clientId != ps[j].clientId
  }

  predicate HasId(ps: seq<TrackedMessage>, id: ClientId) {
    exists i :: 0 <= i < |ps| && ps[i].clientId == id
  }

  /** Position of the entry keyed `id`, if any. */
  function IndexOf(ps: seq<TrackedMessage>, id: ClientId): (r: Option<nat>)
    ensures r.Some? ==> r.value < |ps| && ps[r.value].clientId == id
    ensures r.None? <==> !HasId(ps, id)
  {
    if |ps| == 0 then None
    else if ps[|ps| - 1].clientId == id then Some(|ps| - 1)
    else
      var r := IndexOf(ps[..|ps| - 1], id);
      assert forall i :: 0 <= i < |ps| - 1 ==> ps[..|ps| - 1][i] == ps[i];
      r
  }

  /** `{...ps, [t.clientId]: t}`: an existing key keeps its position and
      takes the new value; a new key goes last. */
  function Put(ps: seq<TrackedMessage>, t: TrackedMessage): (r: seq<TrackedMessage>)
    ensures HasId(ps, t.clientId) ==> |r| == |ps|
    ensures !HasId(ps, t.clientId) ==> r == ps + [t]
    ensures forall i :: 0 <= i < |ps| && ps[i].clientId != t.clientId ==> r[i] == ps[i]
    ensures t in r
    ensures UniqueIds(ps) ==> UniqueIds(r)
  {
    match IndexOf(ps, t.clientId)
    case Some(i) =>
      var r := ps[i := t];
      assert r[i] == t;
      r
    case None => ps + [t]
  }

  /** `delete ps[id]`: every entry keyed `id` goes, the rest keep their order. */
  function Delete(ps: seq<TrackedMessage>, id: ClientId): (r: seq<TrackedMessage>)
    ensures |r| <= |ps|
    ensures forall k :: 0 <= k < |r| ==> r[k] in ps && r[k].clientId != id
  {
    if |ps| == 0 then []
    else if ps[0].clientId == id then Delete(ps[1..], id)
    else [ps[0]] + Delete(ps[1..], id)
  }

  lemma {:induction false} DeleteKeepsUniqueIds(ps: seq<TrackedMessage>, id: ClientId)
    requires UniqueIds(ps)
    ensures UniqueIds(Delete(ps, id))
  {
    if |ps| > 0 {
      var tail := ps[1..];
      assert UniqueIds(tail);
      DeleteKeepsUniqueIds(tail, id);
      if ps[0].clientId != id {
        var rest := Delete(tail, id);
        var r := [ps[0]] + rest;
        forall i, j | 0 <= i < j < |r| ensures r[i].clientId != r[j].clientId {
          if i == 0 {
            assert r[j] == rest[j - 1] && rest[j - 1] in tail;
            var k :| 0 <= k < |tail| && tail[k] == rest[j - 1];
            assert ps[k + 1] == rest[j - 1];
          } else {
            assert r[i] == rest[i - 1] && r[j] == rest[j - 1];
          }
        }
      }
    }
  }

  /** Replaces the status of the entry keyed `id`, when there is one. */
  function SetStatus(ps: seq<TrackedMessage>, id: ClientId, status: SendStatus): (r: seq<TrackedMessage>)
    ensures |r| == |ps|
    ensures forall i :: 0 <= i < |ps| ==> r[i].clientId == ps[i].clientId && r[i].payload == ps[i].payload
    ensures forall i :: 0 <= i < |ps| && ps[i].clientId != id ==> r[i] == ps[i]
    ensures forall i :: 0 <= i < |ps| && ps[i].clientId == id && UniqueIds(ps) ==> r[i].status == status
    ensures forall i :: 0 <= i < |ps| ==> r[i] == ps[i].(status := r[i].status)
  {
    match IndexOf(ps, id)
    case Some(i) => ps[i := ps[i].(status := status)]
    case None => ps
  }

  predicate Matches(t: TrackedMessage, chat: ChatInfo) {
    t.payload.threadId == chat.threadId && t.payload.content == chat.content
  }

  /** `Object.values(ps).find(...)`: the first entry whose thread and content
      equal the broadcast's. */
  function FirstMatch(ps: seq<TrackedMessage>, chat: ChatInfo): (r: Option<nat>)
    ensures r.Some? ==> r.value < |ps| && Matches(ps[r.value], chat)
    ensures r.Some? ==> forall j :: 0 <= j < r.value ==> !Matches(ps[j], chat)
    ensures r.None? ==> forall j :: 0 <= j < |ps| ==> !Matches(ps[j], chat)
  {
    if |ps| == 0 then None
    else if Matches(ps[0], chat) then Some(0)
    else match FirstMatch(ps[1..], chat)
      case Some(k) => Some(k + 1)
      case None => None
  }

  /** Reconciliation of the user's own broadcast with its pending entry. */
  function Reconcile(ps: seq<TrackedMessage>, chat: ChatInfo): seq<TrackedMessage> {
    match FirstMatch(ps, chat)
    case Some(i) => Delete(ps, ps[i].clientId)
    case None => ps
  }

  lemma {:induction false} DeleteAt(ps: seq<TrackedMessage>, i: nat)
    requires UniqueIds(ps) && i < |ps|
    ensures Delete(ps, ps[i].clientId) == ps[..i] + ps[i + 1..]
  {
    if i == 0 {
      DeleteHead(ps);
    } else {
      var tail := ps[1..];
      assert UniqueIds(tail);
      assert tail[i - 1] == ps[i];
      DeleteAt(tail, i - 1);
      DeleteBehindHead(ps, i);
      assert ps[..i] == [ps[0]] + tail[..i - 1];
      assert ps[i + 1..] == tail[i..];
    }
  }

  /** Deleting the first entry's id removes just that entry. */
  lemma DeleteHead(ps: seq<TrackedMessage>)
    requires UniqueIds(ps) && |ps| > 0
    ensures Delete(ps, ps[0].clientId) == ps[1..]
  {
    var tail := ps[1..];
    assert forall j :: 0 <= j < |tail| ==> tail[j].clientId != ps[0].clientId by {
      forall j | 0 <= j < |tail| ensures tail[j].clientId != ps[0].clientId {
        assert tail[j] == ps[j + 1];
      }
    }
    DeleteAbsent(tail, ps[0].clientId);
  }

  /** Deleting a later entry's id keeps the first entry in front. */
  lemma DeleteBehindHead(ps: seq<TrackedMessage>, i: nat)
    requires UniqueIds(ps) && 0 < i < |ps|
    ensures Delete(ps, ps[i].clientId) == [ps[0]] + Delete(ps[1..], ps[i].clientId)
  {
  }

  lemma {:induction false} DeleteAbsent(ps: seq<TrackedMessage>, id: ClientId)
    requires forall j :: 0 <= j < |ps| ==> ps[j].clientId != id
    ensures Delete(ps, id) == ps
  {
    if |ps| > 0 {
      DeleteAbsent(ps[1..], id);
      assert [ps[0]] + ps[1..] == ps;
    }
  }

  /** A broadcast removes at most one pending entry: the first that matches
      it, with every other entry kept in order. */
  lemma ReconcileRemovesFirstMatch(ps: seq<TrackedMessage>, chat: ChatInfo)
    requires UniqueIds(ps)
    ensures FirstMatch(ps, chat).None? ==> Reconcile(ps, chat) == ps
    ensures FirstMatch(ps, chat).Some? ==>
      var i := FirstMatch(ps, chat).value;
      Reconcile(ps, chat) == ps[..i] + ps[i + 1..]
  {
    if FirstMatch(ps, chat).Some? {
      DeleteAt(ps, FirstMatch(ps, chat).value);
    }
  }

  // ---------------------------------------------------------------------
  // Outbound sends
  // ---------------------------------------------------------------------

  /** A chat or party text message with content is tracked until echoed. */
  predicate Trackable(frame: OutFrame) {
    (frame.kind == "send_message_to_thread" || frame.kind == "send_message_to_party")
    && frame.payload.Some? && Truthy(frame.payload.value.content)
  }

  predicate CanSend(st: State, link: Link) {
    st.ws.Some? && link.open
  }

  /** The outcome of `sendMessage`: the new state, the frames the socket
      accepted, and whether the call threw to its caller. */
  datatype SendResult = SendResult(state: State, transmitted: seq<OutFrame>, raised: bool)

  /** `sendMessage(frame)`, with `newId` the client id it generates and `now`
      the timestamp it reads. */
  function SendMessage(st: State, frame: OutFrame, link: Link, newId: ClientId, now: int): (r: SendResult)
    ensures !CanSend(st, link) ==> r == SendResult(st, [], false)
    ensures r.state == st.(pendingMessages := r.state.pendingMessages)
    ensures !Trackable(frame) ==> r.state == st
    ensures r.transmitted == (if CanSend(st, link) && !link.sendThrows then [frame] else [])
    ensures r.raised <==> CanSend(st, link) && link.sendThrows && !Trackable(frame)
    ensures Trackable(frame) && CanSend(st, link) && !HasId(st.pendingMessages, newId) ==>
      r.state.pendingMessages == st.pendingMessages
        + [TrackedMessage(newId, if link.sendThrows then Failed else Sent, frame.payload.value, now)]
  {
    if !CanSend(st, link) then SendResult(st, [], false)
    else if Trackable(frame) then
      var added := Put(st.pendingMessages, TrackedMessage(newId, Sending, frame.payload.value, now));
      if link.sendThrows then SendResult(st.(pendingMessages := SetStatus(added, newId, Failed)), [], false)
      else SendResult(st.(pendingMessages := SetStatus(added, newId, Sent)), [frame], false)
    else if link.sendThrows then SendResult(st, [], true)
    else SendResult(st, [frame], false)
  }

  // ---------------------------------------------------------------------
  // Inbound dispatch
  // ---------------------------------------------------------------------

  datatype StepResult = StepResult(state: State, transmitted: seq<OutFrame>)

  /** The frame sent after authentication to learn the current party. */
  const PartyStatusQuery: OutFrame := OutFrame("get_my_party_status", None)

  function PartyOf(info: PartyInfo): Party {
    Party(info.threadId, info.fileId, info.isOwner)
  }

  /** Whether the update for `frame` throws before it returns: a branch that
      reads a field of a missing payload, or the party-status query of
      `authenticated` whose send throws. */
  predicate Throws(st: State, frame: Inbound, link: Link) {
    match frame
    case Authenticated(user) => (CanSend(st, link) && link.sendThrows) || user.None?
    case ActivePartyInfo(info) => info.None?
    case JoinedWatchPartySuccess(info) => info.None?
    case OwnershipTransferred(thread) => thread.None?
    case OwnershipRevoked(thread) => thread.None?
    case PartyFileChanged(newFile) => newFile.None?
    case NewChatMessage(chat) => chat.None?
    case TranscodingComplete(transcode) => transcode.None?
    case _ => false
  }

  /** The update for one parsed frame. A branch that reads a field of a
      missing payload throws inside the update, which then commits nothing
      (not even `lastMessage`): that is the `StepResult(st, …)` answer. */
  function Dispatch(st: State, frame: Inbound, link: Link): (r: StepResult)
    ensures Throws(st, frame, link) ==> r.state == st
    ensures !Throws(st, frame, link) ==> r.state.lastMessage == Some(frame)
    ensures r.state.ws == st.ws && r.state.isConnected == st.isConnected
    ensures !frame.Authenticated? ==> r.transmitted == []
    ensures !frame.Authenticated? ==> r.state.isAuthenticated == st.isAuthenticated && r.state.userId == st.userId
    ensures !frame.NewChatMessage? ==> r.state.pendingMessages == st.pendingMessages
    ensures frame.NewChatMessage? ==>
      (|| r.state.pendingMessages == st.pendingMessages
       || (frame.chat.Some? && r.state.pendingMessages == Reconcile(st.pendingMessages, frame.chat.value)))
    ensures !frame.TranscodingComplete? ==> r.state.transcodingStatus == st.transcodingStatus
    ensures frame.Authenticated? || frame.NewChatMessage? || frame.TranscodingComplete? || frame.Other?
      ==> r.state.party == st.party
    ensures frame.Other? ==> r == StepResult(st.(lastMessage := Some(frame)), [])
  {
    var next := st.(lastMessage := Some(frame));
    match frame
    case Authenticated(user) =>
      // sendMessage runs inside the update, before the payload is read; the
      // status query is not trackable, so the client id and time are unused.
      var query := SendMessage(st, PartyStatusQuery, link, "", 0);
      if query.raised then StepResult(st, [])
      else if user.None? then StepResult(st, query.transmitted)
      else StepResult(next.(isAuthenticated := true, userId := user.value), query.transmitted)
    case ActivePartyInfo(info) =>
      if info.None? then StepResult(st, []) else StepResult(next.(party := PartyOf(info.value)), [])
    case JoinedWatchPartySuccess(info) =>
      if info.None? then StepResult(st, []) else StepResult(next.(party := PartyOf(info.value)), [])
    case WatchPartyLeft =>
      StepResult(next.(party := NoParty), [])
    case UserBanned(banned) =>
      if banned == st.userId then StepResult(next.(party := NoParty), []) else StepResult(next, [])
    case PartyListUpdated(newFileId) =>
      if Truthy(newFileId) && Truthy(st.party.threadId) && st.party.fileId != newFileId
      then StepResult(next.(party := st.party.(fileId := newFileId)), [])
      else StepResult(next, [])
    case OwnershipTransferred(thread) =>
      if thread.None? then StepResult(st, [])
      else if st.party.threadId == thread.value then StepResult(next.(party := st.party.(isOwner := Bool(true))), [])
      else StepResult(next, [])
    case OwnershipRevoked(thread) =>
      if thread.None? then StepResult(st, [])
      else if st.party.threadId == thread.value then StepResult(next.(party := st.party.(isOwner := Bool(false))), [])
      else StepResult(next, [])
    case PartyFileChanged(newFile) =>
      if newFile.None? then StepResult(st, [])
      else if Truthy(st.party.threadId) && st.party.fileId != newFile.value
      then StepResult(next.(party := st.party.(fileId := newFile.value)), [])
      else StepResult(next, [])
    case NewChatMessage(chat) =>
      if chat.None? then StepResult(st, [])
      else if chat.value.authorId == st.userId
      then StepResult(next.(pendingMessages := Reconcile(st.pendingMessages, chat.value)), [])
      else StepResult(next, [])
    case TranscodingComplete(transcode) =>
      if transcode.None? then StepResult(st, [])
      else
        var key := ToString(transcode.value.fileId);
        StepResult(next.(transcodingStatus := st.transcodingStatus[key := TranscodeEntry(transcode.value.url, true)]), [])
    case Other(_) =>
      StepResult(next, [])
  }

  /** `onmessage`: `None` is a frame that is not valid JSON, which is logged
      and otherwise ignored. */
  function OnMessage(st: State, raw: Option<Inbound>, link: Link): (r: StepResult)
    ensures raw.None? ==> r == StepResult(st, [])
    ensures r.state.ws == st.ws && r.state.isConnected == st.isConnected
  {
    match raw
    case None => StepResult(st, [])
    case Some(frame) => Dispatch(st, frame, link)
  }

  // ---------------------------------------------------------------------
  // Connection lifecycle and mutators
  // ---------------------------------------------------------------------

  /** A partial party record: `None` is a key the caller left out, `Some(v)`
      a key present with value `v` (which may itself be `undefined`). */
  datatype PartyPatch = PartyPatch(threadId: Option<Scalar>, fileId: Option<Scalar>, isOwner: Option<Scalar>)

  datatype Reaction = Reaction(state: State, effects: seq<Effect>)

  /** `connect()`: outside the browser, or while the store holds a socket, it
      does nothing; otherwise it creates socket `newSocket`. The store itself only
      changes when that socket opens. */
  function Connect(st: State, browser: bool, newSocket: SocketId): (r: Reaction)
    ensures r.state == st
    ensures r.effects == [] <==> !browser || st.ws.Some?
    ensures r.effects != [] ==> r.effects == [OpenSocket(newSocket)]
  {
    if !browser || st.ws.Some? then Reaction(st, []) else Reaction(st, [OpenSocket(newSocket)])
  }

  /** `onopen` of socket `s`. */
  function OnOpen(st: State, s: SocketId): (r: Reaction)
    ensures r.state.ws == Some(s) && r.state.isConnected
    ensures r.state.(ws := st.ws, isConnected := st.isConnected) == st
    ensures r.effects == []
  {
    Reaction(st.(ws := Some(s), isConnected := true), [])
  }

  /** `onerror` of socket `s`: it closes that socket; the reset follows in
      its `onclose`. */
  function OnError(st: State, s: SocketId): (r: Reaction)
    ensures r.state == st && r.effects == [CloseSocket(s)]
  {
    Reaction(st, [CloseSocket(s)])
  }

  /** `onclose`: whatever the state was, it becomes the initial state. */
  function OnClose(st: State): (r: Reaction)
    ensures r.state.ws.None? && !r.state.isConnected && !r.state.isAuthenticated
    ensures r.state.userId == Null && r.state.lastMessage.None? && r.state.party == NoParty
    ensures r.state.transcodingStatus == map[] && r.state.pendingMessages == []
    ensures r.effects == []
  {
    Reaction(Initial, [])
  }

  /** `disconnect()`: closes the held socket (its `onclose` then resets), or
      resets directly when there is none. */
  function Disconnect(st: State): (r: Reaction)
    ensures st.ws.None? ==> r == Reaction(Initial, [])
    ensures st.ws.Some? ==> r == Reaction(st, [CloseSocket(st.ws.value)])
  {
    match st.ws
    case Some(s) => Reaction(st, [CloseSocket(s)])
    case None => Reaction(Initial, [])
  }

  /** `setParty(partial)`: `{...party, ...partial}`. */
  function SetParty(st: State, patch: PartyPatch): (r: State)
    ensures r.(party := st.party) == st
    ensures r.party.threadId == patch.threadId.GetOr(st.party.threadId)
    ensures r.party.fileId == patch.fileId.GetOr(st.party.fileId)
    ensures r.party.isOwner == patch.isOwner.GetOr(st.party.isOwner)
  {
    st.(party := Party(
      patch.threadId.GetOr(st.party.threadId),
      patch.fileId.GetOr(st.party.fileId),
      patch.isOwner.GetOr(st.party.isOwner)))
  }

  /** `setPartyFile(fileId)`: only while a party is active. */
  function SetPartyFile(st: State, fileId: int): (r: State)
    ensures Truthy(st.party.threadId) ==> r == st.(party := st.party.(fileId := Num(fileId)))
    ensures !Truthy(st.party.threadId) ==> r == st
  {
    if Truthy(st.party.threadId) then st.(party := st.party.(fileId := Num(fileId))) else st
  }

  /** `updateTranscodingStatus(fileId, status)`. */
  function UpdateTranscodingStatus(st: State, fileId: int, status: TranscodeEntry): (r: State)
    ensures r.(transcodingStatus := st.transcodingStatus) == st
    ensures r.transcodingStatus.Keys == st.transcodingStatus.Keys + {Decimal(fileId)}
    ensures r.transcodingStatus[Decimal(fileId)] == status
    ensures forall k :: k in st.transcodingStatus && k != Decimal(fileId) ==> r.transcodingStatus[k] == st.transcodingStatus[k]
  {
    st.(transcodingStatus := st.transcodingStatus[Decimal(fileId) := status])
  }

  // ---------------------------------------------------------------------
  // Whole-store runs
  // ---------------------------------------------------------------------

  /** Everything that can happen to the store, in arrival order. */
  datatype Event =
    | ConnectCalled(browser: bool, newSocket: SocketId)
    | SocketOpened(socket: SocketId)
    | FrameReceived(raw: Option<Inbound>, link: Link)
    | SocketErrored(socket: SocketId)
    | SocketClosed
    | SendCalled(frame: OutFrame, link: Link, newId: ClientId, now: int)
    | DisconnectCalled
    | SetPartyCalled(patch: PartyPatch)
    | SetPartyFileCalled(fileId: int)
    | UpdateTranscodingCalled(fileId: int, status: TranscodeEntry)

  function TransmitAll(frames: seq<OutFrame>): (r: seq<Effect>)
    ensures |r| == |frames| && forall i :: 0 <= i < |r| ==> r[i] == Transmit(frames[i])
  {
    if |frames| == 0 then [] else [Transmit(frames[0])] + TransmitAll(frames[1..])
  }

  function Apply(st: State, e: Event): Reaction {
    match e
    case ConnectCalled(browser, newSocket) => Connect(st, browser, newSocket)
    case SocketOpened(s) => OnOpen(st, s)
    case FrameReceived(raw, link) =>
      var r := OnMessage(st, raw, link);
      Reaction(r.state, TransmitAll(r.transmitted))
    case SocketErrored(s) => OnError(st, s)
    case SocketClosed => OnClose(st)
    case SendCalled(frame, link, newId, now) =>
      var r := SendMessage(st, frame, link, newId, now);
      Reaction(r.state, TransmitAll(r.transmitted))
    case DisconnectCalled => Disconnect(st)
    case SetPartyCalled(patch) => Reaction(SetParty(st, patch), [])
    case SetPartyFileCalled(fileId) => Reaction(SetPartyFile(st, fileId), [])
    case UpdateTranscodingCalled(fileId, status) => Reaction(UpdateTranscodingStatus(st, fileId, status), [])
  }

  /** The state after the events `es`, in order. */
  function Run(st: State, es: seq<Event>): State
    decreases |es|
  {
    if |es| == 0 then st else Apply(Run(st, es[..|es| - 1]), es[|es| - 1]).state
  }

  /** The store's invariant: pending entries have distinct ids, and none is
      left in `sending` once a `sendMessage` call has returned. */
  predicate Valid(st: State) {
    ValidPending(st.pendingMessages)
  }

  predicate ValidPending(ps: seq<TrackedMessage>) {
    && UniqueIds(ps)
    && forall i :: 0 <= i < |ps| ==> ps[i].status != Sending
  }

  lemma SendMessageKeepsValid(st: State, frame: OutFrame, link: Link, newId: ClientId, now: int)
    requires Valid(st)
    ensures Valid(SendMessage(st, frame, link, newId, now).state)
  {
    if CanSend(st, link) && Trackable(frame) {
      var status := if link.sendThrows then Failed else Sent;
      var added := Put(st.pendingMessages, TrackedMessage(newId, Sending, frame.payload.value, now));
      var marked := SetStatus(added, newId, status);
      assert SendMessage(st, frame, link, newId, now).state.pendingMessages == marked;
      forall i | 0 <= i < |marked| ensures marked[i].status != Sending {
        if added[i].clientId != newId {
          if HasId(st.pendingMessages, newId) {
            assert added[i] == st.pendingMessages[i];
          } else {
            assert added == st.pendingMessages + [TrackedMessage(newId, Sending, frame.payload.value, now)];
            assert added[i] == st.pendingMessages[i];
          }
        }
      }
    }
  }

  lemma ReconcileKeepsValid(ps: seq<TrackedMessage>, chat: ChatInfo)
    requires ValidPending(ps)
    ensures ValidPending(Reconcile(ps, chat))
  {
    var r := Reconcile(ps, chat);
    var first := FirstMatch(ps, chat);
    if first.Some? {
      DeleteKeepsUniqueIds(ps, ps[first.value].clientId);
    }
    forall i | 0 <= i < |r| ensures r[i].status != Sending {
      assert r[i] in ps;
    }
  }

  lemma DispatchKeepsValid(st: State, frame: Inbound, link: Link)
    requires Valid(st)
    ensures Valid(Dispatch(st, frame, link).state)
  {
    if frame.NewChatMessage? && frame.chat.Some? {
      ReconcileKeepsValid(st.pendingMessages, frame.chat.value);
    }
  }

  /** Every event keeps the invariant. */
  lemma ApplyKeepsValid(st: State, e: Event)
    requires Valid(st)
    ensures Valid(Apply(st, e).state)
  {
    match e
    case FrameReceived(raw, link) =>
      if raw.Some? {
        DispatchKeepsValid(st, raw.value, link);
      }
    case SendCalled(frame, link, newId, now) =>
      SendMessageKeepsValid(st, frame, link, newId, now);
    case _ =>
  }

  /** Any run from a valid state ends in a valid state. */
  lemma {:induction false} RunKeepsValid(st: State, es: seq<Event>)
    requires Valid(st)
    ensures Valid(Run(st, es))
    decreases |es|
  {
    if |es| > 0 {
      RunKeepsValid(st, es[..|es| - 1]);
      ApplyKeepsValid(Run(st, es[..|es| - 1]), es[|es| - 1]);
    }
  }

  /** The connection lifecycle: once a socket has opened, `connect()` is a
      no-op; once it has closed, `connect()` in the browser creates a new one. */
  lemma ConnectFollowsOpenAndClose(st: State, s: SocketId, browser: bool, newSocket: SocketId)
    ensures var live := OnOpen(st, s).state;
      Connect(live, browser, newSocket) == Reaction(live, [])
    ensures Connect(OnClose(st).state, browser, newSocket).effects == (if browser then [OpenSocket(newSocket)] else [])
  {
  }

  /** An error closes exactly the failing socket, and the close that follows
      resets the store; the error alone changes nothing. */
  lemma ErrorThenCloseResets(st: State, s: SocketId)
    ensures var e := Apply(st, SocketErrored(s));
      e.state == st && e.effects == [CloseSocket(s)] && Apply(e.state, SocketClosed).state == Initial
  {
  }

  /** `disconnect()` always ends in the initial state: at once when no
      socket is held, or when the held socket's close arrives. */
  lemma DisconnectEndsInInitial(st: State)
    ensures var d := Apply(st, DisconnectCalled);
      && (d.effects == [] ==> d.state == Initial)
      && (d.effects != [] ==> d.effects == [CloseSocket(st.ws.value)] && Apply(d.state, SocketClosed).state == Initial)
  {
  }

  /** `setParty` with every field supplied installs the same party as a
      `joined_watch_party_success` or `active_party_info` frame carrying
      those fields; only `lastMessage` differs. */
  lemma SetPartyAgreesWithPartyFrames(st: State, info: PartyInfo, link: Link)
    ensures var patched := SetParty(st, PartyPatch(Some(info.threadId), Some(info.fileId), Some(info.isOwner)));
      && patched == Dispatch(st, JoinedWatchPartySuccess(Some(info)), link).state.(lastMessage := st.lastMessage)
      && patched == Dispatch(st, ActivePartyInfo(Some(info)), link).state.(lastMessage := st.lastMessage)
  {
  }

  /** `setParty` with nothing supplied changes nothing, and applying the same
      patch twice is the same as applying it once. */
  lemma SetPartyIsIdempotent(st: State, patch: PartyPatch)
    ensures SetParty(st, PartyPatch(None, None, None)) == st
    ensures SetParty(SetParty(st, patch), patch) == SetParty(st, patch)
  {
  }

  /** `setPartyFile(id)` does what a `party_file_changed` frame naming that
      id does to the state; only `lastMessage` differs. */
  lemma SetPartyFileAgreesWithFileChangeFrame(st: State, fileId: int, link: Link)
    ensures SetPartyFile(st, fileId)
      == Dispatch(st, PartyFileChanged(Some(Num(fileId))), link).state.(lastMessage := st.lastMessage)
  {
  }

  /** `updateTranscodingStatus(id, {url, completed: true})` does what a
      `transcoding_complete` frame for that id does to the state; only
      `lastMessage` differs. */
  lemma UpdateAgreesWithTranscodingFrame(st: State, fileId: int, url: Scalar, link: Link)
    ensures var frame := TranscodingComplete(Some(TranscodeInfo(Num(fileId), url)));
      UpdateTranscodingStatus(st, fileId, TranscodeEntry(url, true))
        == Dispatch(st, frame, link).state.(lastMessage := st.lastMessage)
  {
  }

  /** The store records a socket only when it opens, so two `connect()` calls
      before the first socket opens create two sockets. */
  lemma ConnectBeforeOpenCreatesTwoSockets()
    ensures Connect(Initial, true, 1).effects == [OpenSocket(1)]
    ensures Connect(Connect(Initial, true, 1).state, true, 2).effects == [OpenSocket(2)]
  {
  }

  /** `authenticated` on an open socket: the user is recorded and exactly one
      party-status query goes out. */
  lemma AuthenticatedQueriesPartyStatus(st: State, user: Scalar, link: Link)
    requires CanSend(st, link) && !link.sendThrows
    ensures Dispatch(st, Authenticated(Some(user)), link) ==
      StepResult(st.(lastMessage := Some(Authenticated(Some(user))), isAuthenticated := true, userId := user),
                 [PartyStatusQuery])
  {
  }

  /** `authenticated` sends the party-status query before it reads the
      payload: without a payload the query still goes out and nothing is
      committed. With a closed socket nothing goes out; a throwing send
      commits nothing either. */
  lemma AuthenticatedEdgeCases(st: State, user: Option<Scalar>, link: Link)
    ensures CanSend(st, link) && !link.sendThrows ==>
      Dispatch(st, Authenticated(None), link) == StepResult(st, [PartyStatusQuery])
    ensures CanSend(st, link) && link.sendThrows ==> Dispatch(st, Authenticated(user), link) == StepResult(st, [])
    ensures !CanSend(st, link) ==>
      Dispatch(st, Authenticated(user), link).transmitted == []
      && (user.None? ==> Dispatch(st, Authenticated(user), link).state == st)
      && (user.Some? ==>
            Dispatch(st, Authenticated(user), link).state
              == st.(lastMessage := Some(Authenticated(user)), isAuthenticated := true, userId := user.value))
  {
  }

  /** The ownership frames touch only `party.isOwner`, and only for the
      current party's thread. */
  lemma OwnershipFramesTouchOnlyIsOwner(st: State, thread: Scalar, link: Link)
    ensures var p := Dispatch(st, OwnershipTransferred(Some(thread)), link).state.party;
      p == (if st.party.threadId == thread then st.party.(isOwner := Bool(true)) else st.party)
    ensures var p := Dispatch(st, OwnershipRevoked(Some(thread)), link).state.party;
      p == (if st.party.threadId == thread then st.party.(isOwner := Bool(false)) else st.party)
  {
  }

  /** `active_party_info` and `joined_watch_party_success` install the
      party the payload describes and change nothing else but `lastMessage`;
      without a payload they commit nothing. `watch_party_left` clears the
      party. */
  lemma PartyFramesInstallParty(st: State, info: Option<PartyInfo>, link: Link)
    ensures var r1 := Dispatch(st, ActivePartyInfo(info), link).state;
      var r2 := Dispatch(st, JoinedWatchPartySuccess(info), link).state;
      if info.None? then r1 == st && r2 == st
      else
        && r1.party.threadId == info.value.threadId && r1.party.fileId == info.value.fileId
        && r1.party.isOwner == info.value.isOwner
        && r1 == st.(lastMessage := Some(ActivePartyInfo(info)), party := r1.party)
        && r2 == st.(lastMessage := Some(JoinedWatchPartySuccess(info)), party := r1.party)
    ensures Dispatch(st, WatchPartyLeft, link).state == st.(lastMessage := Some(WatchPartyLeft), party := NoParty)
  {
  }

  /** `transcoding_complete` records `{url, completed: true}` under the
      property key of its file id, keeps every other entry, and changes
      nothing else but `lastMessage`; without a payload it commits nothing. */
  lemma TranscodingFrameRecordsCompletion(st: State, transcode: Option<TranscodeInfo>, link: Link)
    ensures var r := Dispatch(st, TranscodingComplete(transcode), link).state;
      if transcode.None? then r == st
      else
        var key := ToString(transcode.value.fileId);
        && r.transcodingStatus.Keys == st.transcodingStatus.Keys + {key}
        && r.transcodingStatus[key] == TranscodeEntry(transcode.value.url, true)
        && (forall k :: k in st.transcodingStatus && k != key ==> r.transcodingStatus[k] == st.transcodingStatus[k])
        && r == st.(lastMessage := Some(TranscodingComplete(transcode)), transcodingStatus := r.transcodingStatus)
  {
  }

  /** `user_banned` clears the party exactly when the banned id is this
      session's user id (strict equality: `null` matches only `null`). */
  lemma UserBannedClearsOnlySelf(st: State, banned: Scalar, link: Link)
    ensures Dispatch(st, UserBanned(banned), link).state.party == (if banned == st.userId then NoParty else st.party)
  {
  }

  /** The file-change frames move only `party.fileId`, only while a party is
      active and the id differs; `party_list_updated` also ignores a falsy id. */
  lemma FileChangeFramesTouchOnlyFileId(st: State, newFileId: Scalar, link: Link)
    ensures var p := Dispatch(st, PartyFileChanged(Some(newFileId)), link).state.party;
      p.threadId == st.party.threadId && p.isOwner == st.party.isOwner
      && (p.fileId != st.party.fileId <==> Truthy(st.party.threadId) && st.party.fileId != newFileId)
      && (p.fileId != st.party.fileId ==> p.fileId == newFileId)
    ensures var p := Dispatch(st, PartyListUpdated(newFileId), link).state.party;
      p.threadId == st.party.threadId && p.isOwner == st.party.isOwner
      && (p.fileId != st.party.fileId <==> Truthy(newFileId) && Truthy(st.party.threadId) && st.party.fileId != newFileId)
      && (p.fileId != st.party.fileId ==> p.fileId == newFileId)
  {
  }

  /** The party after a frame depends on nothing but the previous party, the
      user id and the frame. */
  lemma PartyReducerIsPure(st1: State, st2: State, frame: Inbound, link1: Link, link2: Link)
    requires st1.party == st2.party && st1.userId == st2.userId
    ensures Dispatch(st1, frame, link1).state.party == Dispatch(st2, frame, link2).state.party
  {
  }

  /** A broadcast of the user's own message confirms at most one pending
      entry, the first with the same thread and content; others' broadcasts
      confirm none. */
  lemma OwnEchoRemovesFirstPending(st: State, chat: ChatInfo, link: Link)
    requires UniqueIds(st.pendingMessages)
    ensures var ps := Dispatch(st, NewChatMessage(Some(chat)), link).state.pendingMessages;
      if chat.authorId == st.userId && FirstMatch(st.pendingMessages, chat).Some? then
        var i := FirstMatch(st.pendingMessages, chat).value;
        ps == st.pendingMessages[..i] + st.pendingMessages[i + 1..]
      else ps == st.pendingMessages
  {
    ReconcileRemovesFirstMatch(st.pendingMessages, chat);
  }

  /** Scenario: a trackable send followed by its own echo leaves nothing
      pending. */
  lemma SendThenEchoClearsPending(st: State, thread: int, content: string, newId: ClientId, now: int, link: Link)
    requires Valid(st) && st.pendingMessages == [] && CanSend(st, link) && !link.sendThrows
    requires content != ""
    ensures var frame := OutFrame("send_message_to_thread", Some(OutPayload(Num(thread), Str(content))));
      var sent := SendMessage(st, frame, link, newId, now);
      && sent.state.pendingMessages == [TrackedMessage(newId, Sent, OutPayload(Num(thread), Str(content)), now)]
      && Dispatch(sent.state, NewChatMessage(Some(ChatInfo(Num(thread), Str(content), st.userId))), link)
           .state.pendingMessages == []
  {
    var frame := OutFrame("send_message_to_thread", Some(OutPayload(Num(thread), Str(content))));
    var sent := SendMessage(st, frame, link, newId, now);
    var chat := ChatInfo(Num(thread), Str(content), st.userId);
    var t := TrackedMessage(newId, Sent, OutPayload(Num(thread), Str(content)), now);
    assert sent.state.pendingMessages == [t];
    assert sent.state.userId == st.userId;
    assert FirstMatch([t], chat) == Some(0);
    OwnEchoRemovesFirstPending(sent.state, chat, link);
    assert [t][..0] + [t][1..] == [];
  }
}
