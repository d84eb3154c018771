// src/pages/ChatPage.jsx: one open conversation. The page keeps the history
// in arrival order, mirrors its own typing flag to the peer, shows the peer's
// typing flag for a while, and exchanges read markers. Socket events and
// timer expiries arrive as method calls; what the page emits is recorded.

module Chat {
  import opened Js
  import opened Session
  import Socket

  // ---------------------------------------------------------------- messages

  /**
   * A sender or recipient as it arrives: missing, a bare id string, or a
   * populated user object (`ref` tells distinct objects apart, as a JS Set does).
   */
  datatype Party = NoParty | IdParty(id: string) | ObjParty(oid: Option<string>, username: Option<string>, ref: nat)

  /** A member of the sets the page builds: an id string, or an object without a usable id. */
  datatype Key = IdKey(id: string) | ObjKey(ref: nat)

  /** `p?._id || p`, with falsy values dropped as `.filter(Boolean)` drops them. */
  function PartyKey(p: Party): (r: Option<Key>)
    ensures p.NoParty? ==> r.None?
    ensures r.Some? && r.value.IdKey? ==> r.value.id != ""
  {
    match p
    case NoParty => None
    case IdParty(s) => if s != "" then Some(IdKey(s)) else None
    case ObjParty(oid, _, ref) => if Truthy(oid) then Some(IdKey(oid.value)) else Some(ObjKey(ref))
  }

  /** Times are milliseconds; parsing the ISO strings is not part of this model. */
  datatype Message = Message(conversation: Option<string>, conversationId: Option<string>,
                             sender: Party, recipient: Party, text: Option<string>,
                             createdAt: Option<nat>, timestamp: Option<nat>)

  datatype Participant = PNull | PId(id: string) | PObj(oid: Option<string>, username: Option<string>)

  datatype Conversation = Conversation(participants: Option<seq<Participant>>)

  /**
   * Whether a message is mine. Both spellings the page uses
   * (`m.sender._id === myId || m.sender === myId` and
   * `(m.sender._id || m.sender) === myId`, each behind `myId &&`) agree
   * with this once `myId` is a non-empty string.
   */
  predicate SentByMe(m: Message, myId: Option<string>) {
    Truthy(myId) && PartyKey(m.sender) == Some(IdKey(myId.value))
  }

  /** `m.createdAt || m.timestamp || now`. */
  function When(m: Message, now: nat): nat {
    if m.createdAt.Some? then m.createdAt.value
    else if m.timestamp.Some? then m.timestamp.value
    else now
  }

  // ---------------------------------------------------------------- arrival order

  /** The conversation an inbound message names: `msg.conversation || msg.conversationId`. */
  function TargetOf(m: Message): Option<string> {
    Or(m.conversation, m.conversationId)
  }

  /** `onMsg` applied to a history. */
  function Arrive(h: seq<Message>, m: Message, cid: Option<string>): (r: seq<Message>)
    ensures |h| <= |r| <= |h| + 1 && r[..|h|] == h
    ensures |r| == |h| + 1 <==> TargetOf(m) == cid
    ensures |r| == |h| + 1 ==> r[|h|] == m
  {
    if TargetOf(m) == cid then h + [m] else h
  }

  /** A batch of inbound messages handled one after another. */
  function ArriveAll(h: seq<Message>, batch: seq<Message>, cid: Option<string>): (r: seq<Message>)
    ensures |h| <= |r| <= |h| + |batch| && r[..|h|] == h
    decreases |batch|
  {
    if batch == [] then h
    else
      var h1 := Arrive(h, batch[0], cid);
      var r := ArriveAll(h1, batch[1..], cid);
      assert r[..|h1|][..|h|] == r[..|h|];
      r
  }

  /** The messages of a batch that belong to `cid`, in batch order. */
  function ForConversation(batch: seq<Message>, cid: Option<string>): (r: seq<Message>)
    ensures |r| <= |batch|
    ensures forall i :: 0 <= i < |r| ==> TargetOf(r[i]) == cid
  {
    if batch == [] then []
    else (if TargetOf(batch[0]) == cid then [batch[0]] else []) + ForConversation(batch[1..], cid)
  }

  /** History is the old history followed by exactly this conversation's arrivals, in arrival order. */
  lemma {:induction false} ArrivalOrder(h: seq<Message>, batch: seq<Message>, cid: Option<string>)
    ensures ArriveAll(h, batch, cid) == h + ForConversation(batch, cid)
    decreases |batch|
  {
    if batch != [] {
      ArrivalOrder(Arrive(h, batch[0], cid), batch[1..], cid);
      var head := if TargetOf(batch[0]) == cid then [batch[0]] else [];
      assert Arrive(h, batch[0], cid) == h + head;
      assert (h + head) + ForConversation(batch[1..], cid) == h + (head + ForConversation(batch[1..], cid));
    }
  }

  // ---------------------------------------------------------------- self chat

  /** `p` if it is a string, else `p._id`, dropped when falsy. */
  function ParticipantId(p: Participant): (r: Option<string>)
    ensures r.None? || r.value != ""
  {
    match p
    case PNull => None
    case PId(s) => if s != "" then Some(s) else None
    case PObj(oid, _) => if Truthy(oid) then oid else None
  }

  /** `conversation?.participants || []`. */
  function Participants(conv: Option<Conversation>): seq<Participant> {
    if conv.Some? && conv.value.participants.Some? then conv.value.participants.value else []
  }

  /** The non-empty participant ids, in order (duplicates kept). */
  function ParticipantIds(ps: seq<Participant>): (r: seq<string>)
    ensures |r| <= |ps|
    ensures forall i :: 0 <= i < |r| ==> r[i] != ""
  {
    if ps == [] then []
    else (if ParticipantId(ps[0]).Some? then [ParticipantId(ps[0]).value] else []) + ParticipantIds(ps[1..])
  }

  /** The union of the sender set and the recipient set of the history. */
  function MessageKeys(msgs: seq<Message>): set<Key> {
    if msgs == [] then {}
    else
      var last := msgs[|msgs| - 1];
      MessageKeys(msgs[..|msgs| - 1])
        + (if PartyKey(last.sender).Some? then {PartyKey(last.sender).value} else {})
        + (if PartyKey(last.recipient).Some? then {PartyKey(last.recipient).value} else {})
  }

  /** `isSelfChat`. */
  function IsSelfChat(myId: Option<string>, conv: Option<Conversation>, msgs: seq<Message>): (r: bool)
    ensures r ==> Truthy(myId)
    ensures |ParticipantIds(Participants(conv))| > 1 ==> !r
    ensures ParticipantIds(Participants(conv)) == [] && msgs == [] ==> !r
  {
    if !Truthy(myId) then false
    else
      var ids := ParticipantIds(Participants(conv));
      if |ids| > 0 then |ids| == 1 && ids[0] == myId.value
      else if |msgs| > 0 then MessageKeys(msgs) == {IdKey(myId.value)}
      else false
  }

  /** Some message names a sender or a recipient at all. */
  ghost predicate SomeoneNamed(msgs: seq<Message>) {
    exists i :: 0 <= i < |msgs| && (PartyKey(msgs[i].sender).Some? || PartyKey(msgs[i].recipient).Some?)
  }

  /** Every sender and recipient named in the history is `me`. */
  ghost predicate OnlyMeNamed(msgs: seq<Message>, me: string) {
    forall i :: 0 <= i < |msgs| ==>
      PartyKey(msgs[i].sender) in {None, Some(IdKey(me))} && PartyKey(msgs[i].recipient) in {None, Some(IdKey(me))}
  }

  lemma {:induction false} MessageKeysMembers(msgs: seq<Message>, k: Key)
    ensures k in MessageKeys(msgs) <==>
            exists i :: 0 <= i < |msgs| && (PartyKey(msgs[i].sender) == Some(k) || PartyKey(msgs[i].recipient) == Some(k))
    decreases |msgs|
  {
    if msgs != [] {
      var init := msgs[..|msgs| - 1];
      MessageKeysMembers(init, k);
      if k in MessageKeys(init) {
        var i :| 0 <= i < |init| && (PartyKey(init[i].sender) == Some(k) || PartyKey(init[i].recipient) == Some(k));
        assert msgs[i] == init[i];
      }
      if exists i :: 0 <= i < |msgs| && (PartyKey(msgs[i].sender) == Some(k) || PartyKey(msgs[i].recipient) == Some(k)) {
        var i :| 0 <= i < |msgs| && (PartyKey(msgs[i].sender) == Some(k) || PartyKey(msgs[i].recipient) == Some(k));
        if i < |init| {
          assert init[i] == msgs[i];
        }
      }
    }
  }

  /**
   * Self-chat holds exactly when there is a signed-in id and either the
   * participant list names exactly that one id, or the list names nobody and
   * the history names someone and nobody but that id.
   */
  lemma SelfChatMeaning(myId: Option<string>, conv: Option<Conversation>, msgs: seq<Message>)
    ensures IsSelfChat(myId, conv, msgs) <==>
            Truthy(myId) &&
            (if ParticipantIds(Participants(conv)) != [] then ParticipantIds(Participants(conv)) == [myId.value]
             else SomeoneNamed(msgs) && OnlyMeNamed(msgs, myId.value))
  {
    if Truthy(myId) && ParticipantIds(Participants(conv)) == [] {
      var me := IdKey(myId.value);
      forall k {
        MessageKeysMembers(msgs, k);
      }
      if MessageKeys(msgs) == {me} {
        assert me in MessageKeys(msgs);
        forall i | 0 <= i < |msgs|
          ensures PartyKey(msgs[i].sender) in {None, Some(me)} && PartyKey(msgs[i].recipient) in {None, Some(me)}
        {
          if PartyKey(msgs[i].sender).Some? {
            assert PartyKey(msgs[i].sender).value in MessageKeys(msgs);
          }
          if PartyKey(msgs[i].recipient).Some? {
            assert PartyKey(msgs[i].recipient).value in MessageKeys(msgs);
          }
        }
      }
      if SomeoneNamed(msgs) && OnlyMeNamed(msgs, myId.value) {
        var i :| 0 <= i < |msgs| && (PartyKey(msgs[i].sender).Some? || PartyKey(msgs[i].recipient).Some?);
        assert me in MessageKeys(msgs);
        forall k | k in MessageKeys(msgs) ensures k == me {
          var j :| 0 <= j < |msgs| && (PartyKey(msgs[j].sender) == Some(k) || PartyKey(msgs[j].recipient) == Some(k));
        }
        assert MessageKeys(msgs) == {me};
      }
    }
  }

  // ---------------------------------------------------------------- other participant

  /** The header's peer: a bare string that came from the history, or a user object. */
  datatype Peer = PeerText(text: string) | PeerObj(oid: Option<string>, username: Option<string>)

  function PeerId(p: Peer): Option<string> {
    match p
    case PeerText(s) => Some(s)
    case PeerObj(oid, _) => oid
  }

  /** `typeof p === "string" ? p : p?._id`, before any filtering. */
  function RawId(p: Participant): Option<string> {
    match p
    case PNull => None
    case PId(s) => Some(s)
    case PObj(oid, _) => oid
  }

  /** `participants.find(p => rawId(p) !== myId)`: the first participant that is not me. */
  function FindNotMe(ps: seq<Participant>, myId: Option<string>): (r: Option<Participant>)
    ensures r.Some? ==> exists k :: 0 <= k < |ps| && ps[k] == r.value && RawId(ps[k]) != myId
                                    && forall j :: 0 <= j < k ==> RawId(ps[j]) == myId
    ensures r.None? ==> forall i :: 0 <= i < |ps| ==> RawId(ps[i]) == myId
  {
    if ps == [] then None
    else if RawId(ps[0]) != myId then Some(ps[0])
    else
      var r := FindNotMe(ps[1..], myId);
      assert r.Some? ==> exists k :: 0 < k < |ps| && ps[k] == r.value && RawId(ps[k]) != myId
                                     && forall j :: 0 <= j < k ==> RawId(ps[j]) == myId by {
        if r.Some? {
          var k :| 0 <= k < |ps[1..]| && ps[1..][k] == r.value && RawId(ps[1..][k]) != myId
                   && forall j :: 0 <= j < k ==> RawId(ps[1..][j]) == myId;
          assert forall j :: 0 <= j < k + 1 ==> RawId(ps[j]) == myId by {
            forall j | 0 <= j < k + 1 ensures RawId(ps[j]) == myId {
              if j > 0 { assert ps[j] == ps[1..][j - 1]; }
            }
          }
        }
      }
      r
  }

  function PeerOfParty(p: Party): Peer
    requires !p.NoParty?
  {
    match p
    case IdParty(s) => PeerText(s)
    case ObjParty(oid, username, _) => PeerObj(oid, username)
  }

  /** The other side of the last message: its sender if that is not me, else its recipient if that is not me. */
  function PeerFromHistory(msgs: seq<Message>, me: string): (r: Option<Peer>)
    ensures msgs == [] ==> r.None?
    ensures r.Some? ==> var last := msgs[|msgs| - 1];
                        (!last.sender.NoParty? && r.value == PeerOfParty(last.sender))
                        || (!last.recipient.NoParty? && r.value == PeerOfParty(last.recipient))
    ensures r.Some? && me != "" ==> PeerId(r.value) != Some(me)
  {
    if msgs == [] then None
    else
      var last := msgs[|msgs| - 1];
      if PartyKey(last.sender).Some? && PartyKey(last.sender) != Some(IdKey(me)) then Some(PeerOfParty(last.sender))
      else if PartyKey(last.recipient).Some? && PartyKey(last.recipient) != Some(IdKey(me)) then Some(PeerOfParty(last.recipient))
      else None
  }

  /** `otherParticipant`: the conversation's first participant that is not me, else the history's last peer. */
  function OtherParticipant(myId: Option<string>, conv: Option<Conversation>, msgs: seq<Message>): (r: Option<Peer>)
    ensures !Truthy(myId) ==> r.None?
    ensures r.Some? ==> PeerId(r.value) != myId
    ensures Truthy(myId) && conv.Some? && FindNotMe(Participants(conv), myId).Some? ==>
              var found := FindNotMe(Participants(conv), myId).value;
              (found.PId? && found.id != "" ==> r == Some(PeerObj(Some(found.id), Some("User"))))
              && (found.PObj? ==> r == Some(PeerObj(found.oid, found.username)))
    ensures Truthy(myId) && (conv.None? || FindNotMe(Participants(conv), myId).None?
                             || FindNotMe(Participants(conv), myId) in {Some(PNull), Some(PId(""))}) ==>
              r == PeerFromHistory(msgs, myId.value)
  {
    if !Truthy(myId) then None
    else
      var found := if conv.Some? then FindNotMe(Participants(conv), myId) else None;
      if found.Some? && found.value.PId? && found.value.id != "" then Some(PeerObj(Some(found.value.id), Some("User")))
      else if found.Some? && found.value.PObj? then Some(PeerObj(found.value.oid, found.value.username))
      else PeerFromHistory(msgs, myId.value)
  }

  /** A two-party conversation given as id strings names the other party, whatever the history says. */
  lemma OtherParticipantOfPair(me: string, other: string, msgs: seq<Message>)
    requires me != "" && other != "" && other != me
    ensures OtherParticipant(Some(me), Some(Conversation(Some([PId(me), PId(other)]))), msgs)
            == Some(PeerObj(Some(other), Some("User")))
  {
    var ps := [PId(me), PId(other)];
    assert ps[1..] == [PId(other)];
    assert FindNotMe([PId(other)], Some(me)) == Some(PId(other));
    assert FindNotMe(ps, Some(me)) == Some(PId(other));
  }

  // ---------------------------------------------------------------- "Seen"

  /** `lastMineIndex`: the index of my last message, if any. */
  function LastMineIndex(msgs: seq<Message>, myId: Option<string>): (r: Option<nat>)
    ensures r.Some? ==> r.value < |msgs| && SentByMe(msgs[r.value], myId)
                        && forall j :: r.value < j < |msgs| ==> !SentByMe(msgs[j], myId)
    ensures r.None? ==> forall j :: 0 <= j < |msgs| ==> !SentByMe(msgs[j], myId)
  {
    if msgs == [] then None
    else if SentByMe(msgs[|msgs| - 1], myId) then Some(|msgs| - 1)
    else LastMineIndex(msgs[..|msgs| - 1], myId)
  }

  /** Whether "Seen" is rendered under message `idx`. */
  function ShowSeen(msgs: seq<Message>, myId: Option<string>, seenAt: Option<nat>, idx: nat, now: nat): (r: bool)
    requires idx < |msgs|
    ensures r ==> SentByMe(msgs[idx], myId) && seenAt.Some?
    ensures r ==> forall k :: idx < k < |msgs| ==> !SentByMe(msgs[k], myId)
  {
    LastMineIndex(msgs, myId) == Some(idx) && seenAt.Some? && seenAt.value >= When(msgs[idx], now)
  }

  /** "Seen" marks at most one message: my last one, and only once the peer's marker has reached it. */
  lemma SeenMarksMyLastMessage(msgs: seq<Message>, myId: Option<string>, seenAt: Option<nat>, i: nat, j: nat, now: nat)
    requires i < |msgs| && j < |msgs|
    requires ShowSeen(msgs, myId, seenAt, i, now) && ShowSeen(msgs, myId, seenAt, j, now)
    ensures i == j
    ensures SentByMe(msgs[i], myId) && seenAt.value >= When(msgs[i], now)
    ensures forall k :: i < k < |msgs| ==> !SentByMe(msgs[k], myId)
  {
  }

  // ---------------------------------------------------------------- loading

  /** The error text of a failed history load, by the HTTP status it carried. */
  function LoadErrorFor(status: Option<int>): (r: string)
    ensures r == "Conversation not found" <==> status == Some(404)
    ensures r != ""
  {
    if status == Some(404) then "Conversation not found" else "Failed to load chat"
  }

  /** How `GET /chat/<id>/messages` settled. */
  datatype HistoryOutcome = HistoryThrew(status: Option<int>) | HistoryAnswered(success: bool, data: Option<seq<Message>>)

  /** How `GET /chat/<id>` settled; a throw is tolerated and reads as no reply (None). */
  datatype ConversationReply = ConversationReply(success: bool, data: Option<Conversation>)

  /** What the history effect leaves behind: the history, the conversation and the error message. */
  datatype Loaded = Loaded(messages: seq<Message>, conversation: Option<Conversation>, error: string)

  /**
   * The history effect once both replies are in: without an id nothing is
   * fetched; a thrown history keeps the old history and conversation; an
   * answer replaces the conversation and, when it succeeded, the history.
   */
  function LoadOutcome(cid: Option<string>, history: HistoryOutcome, conv: Option<ConversationReply>,
                       messages: seq<Message>, conversation: Option<Conversation>): (r: Loaded)
    ensures !Truthy(cid) ==> r == Loaded(messages, conversation, "No conversation ID provided")
    ensures Truthy(cid) && history.HistoryThrew? ==> r == Loaded(messages, conversation, LoadErrorFor(history.status))
    ensures Truthy(cid) && history.HistoryAnswered? ==>
              r.conversation == (if conv.Some? && conv.value.success then conv.value.data else None)
              && (history.success ==> r.messages == (if history.data.Some? then history.data.value else []) && r.error == "")
              && (!history.success ==> r.messages == messages && r.error == "Failed to load messages")
    ensures r.error == "" <==> Truthy(cid) && history.HistoryAnswered? && history.success
  {
    if !Truthy(cid) then Loaded(messages, conversation, "No conversation ID provided")
    else match history
      case HistoryThrew(status) => Loaded(messages, conversation, LoadErrorFor(status))
      case HistoryAnswered(success, data) =>
        var c := if conv.Some? && conv.value.success then conv.value.data else None;
        if success then Loaded(if data.Some? then data.value else [], c, "")
        else Loaded(messages, c, "Failed to load messages")
  }

  // ---------------------------------------------------------------- token bootstrap

  /** What the page does once it has looked for a token. */
  datatype BootNext = UseToken(token: string) | RedirectToLogin(url: string)

  datatype Boot = Boot(storage: map<string, string>, next: BootNext)

  /**
   * The token effect: a stored "token" is used as is; otherwise one refresh
   * is tried (None: it threw) and its access token, if any, is stored under
   * "token"; with no token at all the page goes to the login page, carrying
   * `encode(pathname + search)` as the redirect.
   */
  function BootstrapToken(storage: map<string, string>, refresh: Option<AuthReply>,
                          pathname: string, search: string, encode: string -> string): (r: Boot)
    ensures Truthy(Get(storage, TokenKey)) ==> r == Boot(storage, UseToken(Get(storage, TokenKey).value))
    ensures r.next.UseToken? ==> Get(r.storage, TokenKey) == Some(r.next.token) && r.next.token != ""
    ensures r.next.RedirectToLogin? ==>
              r.storage == storage && !Truthy(Get(storage, TokenKey))
              && r.next.url == "/login?redirect=" + encode(pathname + search)
    ensures forall k :: k != TokenKey ==> Get(r.storage, k) == Get(storage, k)
  {
    var stored := Get(storage, TokenKey);
    if Truthy(stored) then Boot(storage, UseToken(stored.value))
    else
      var t := if refresh.Some? then AccessTokenOf(refresh.value) else None;
      if t.Some? then Boot(storage[TokenKey := t.value], UseToken(t.value))
      else Boot(storage, RedirectToLogin("/login?redirect=" + encode(pathname + search)))
  }

  // ---------------------------------------------------------------- events

  /** What the page sends: socket emits, and the read POST. */
  datatype Outbound =
    | Join(conversationId: Option<string>)
    | Leave(conversationId: Option<string>)
    | SendText(conversationId: Option<string>, text: string, timestamp: nat)
    | TypingSignal(conversationId: Option<string>, isTyping: bool)
    | ReadSignal(conversationId: Option<string>, at: nat)
    | ReadPost(conversationId: Option<string>, at: nat)

  /** The last typing flag the page told the peer; false before any. */
  function LastTypingSignal(sent: seq<Outbound>): bool {
    if sent == [] then false
    else if sent[|sent| - 1].TypingSignal? then sent[|sent| - 1].isTyping
    else LastTypingSignal(sent[..|sent| - 1])
  }

  lemma LastTypingSignalAppend(sent: seq<Outbound>, o: Outbound)
    ensures LastTypingSignal(sent + [o]) == (if o.TypingSignal? then o.isTyping else LastTypingSignal(sent))
  {
    assert (sent + [o])[..|sent|] == sent;
  }

  /** What the mark-read effect emits: a read POST and a read signal with one time, when the last message is
      someone else's and the socket is connected; nothing otherwise. */
  function ReadMarks(cid: Option<string>, messages: seq<Message>, connected: bool, myId: Option<string>, now: nat)
    : (r: seq<Outbound>)
    ensures r != [] <==> |messages| > 0 && connected && !SentByMe(messages[|messages| - 1], myId)
    ensures r != [] ==> r == [ReadPost(cid, When(messages[|messages| - 1], now)),
                              ReadSignal(cid, When(messages[|messages| - 1], now))]
  {
    if |messages| == 0 || !connected || SentByMe(messages[|messages| - 1], myId) then []
    else
      var at := When(messages[|messages| - 1], now);
      [ReadPost(cid, at), ReadSignal(cid, at)]
  }

  /** Read marks are not typing signals, so they leave the typing state where it was. */
  lemma ReadMarksKeepTyping(sent: seq<Outbound>, marks: seq<Outbound>)
    requires marks == [] || (|marks| == 2 && marks[0].ReadPost? && marks[1].ReadSignal?)
    ensures LastTypingSignal(sent + marks) == LastTypingSignal(sent)
  {
    if marks != [] {
      var once := sent + [marks[0]];
      LastTypingSignalAppend(sent, marks[0]);
      LastTypingSignalAppend(once, marks[1]);
      assert sent + marks == once + [marks[1]];
    } else {
      assert sent + marks == sent;
    }
  }

  datatype TypingEvent = TypingEvent(conversationId: Option<string>, userId: Option<string>, isTyping: bool)

  datatype ReadEvent = ReadEvent(conversationId: Option<string>, userId: Option<string>, at: Option<nat>)

  /** `a === b` where None stands for a missing value (undefined) and `b` is the page's `myId` (null when unknown). */
  predicate SameUser(userId: Option<string>, myId: Option<string>) {
    userId.Some? && myId.Some? && userId == myId
  }

  /** Every field of the chat page that its handlers change, taken together. */
  datatype ChatState = ChatState(
    token: Option<string>, myId: Option<string>, messages: seq<Message>, conversation: Option<Conversation>,
    loading: bool, error: string, text: string, typing: bool, typingTimerArmed: bool,
    theyTyping: bool, theyTypingTimerArmed: bool, seenAt: Option<nat>, listening: bool, sent: seq<Outbound>)

  /** The chat page's state. */
  class ChatView {
    const conversationId: Option<string>
    const sock: Socket.SocketClient
    var token: Option<string>
    var myId: Option<string>
    var messages: seq<Message>
    var conversation: Option<Conversation>
    var loading: bool
    var error: string
    var text: string
    var typing: bool
    var typingTimerArmed: bool
    var theyTyping: bool
    var theyTypingTimerArmed: bool
    var seenAt: Option<nat>
    /** Whether the socket handlers are registered. */
    var listening: bool
    /** Everything the page has sent, in order. */
    var sent: seq<Outbound>

    /**
     * My typing flag is only up while its timer is armed, the peer's timer
     * only runs while their flag is up, and the peer's last typing signal
     * from me always equals my flag.
     */
    ghost predicate Valid()
      reads this, sock
    {
      sock.Valid() &&
      (typing ==> typingTimerArmed) &&
      (theyTypingTimerArmed ==> theyTyping) &&
      typing == LastTypingSignal(sent) &&
      (myId.None? || myId.value != "")
    }

    /** The page's whole state; each handler states its effect as an update of it, so every other field is unchanged. */
    function State(): ChatState
      reads this
    {
      ChatState(token, myId, messages, conversation, loading, error, text, typing, typingTimerArmed,
                theyTyping, theyTypingTimerArmed, seenAt, listening, sent)
    }

    /** The token starts as the stored `token` when it is truthy; `jwtId` is the id decoded from it. */
    constructor (cid: Option<string>, s: Socket.SocketClient, jwtId: Option<string>)
      requires s.Valid()
      ensures Valid() && conversationId == cid && sock == s
      ensures token == (if Truthy(Get(s.browser.storage, TokenKey)) then Get(s.browser.storage, TokenKey) else None)
      ensures myId == (if token.Some? && Truthy(jwtId) then jwtId else None)
      ensures messages == [] && conversation == None
      ensures loading && error == "" && text == "" && !typing && !typingTimerArmed
      ensures !theyTyping && !theyTypingTimerArmed && seenAt == None && !listening && sent == []
    {
      conversationId := cid;
      sock := s;
      var stored := Get(s.browser.storage, TokenKey);
      var t := if Truthy(stored) then stored else None;
      token := t;
      myId := if t.Some? && Truthy(jwtId) then jwtId else None;
      messages := [];
      conversation := None;
      loading := true;
      error := "";
      text := "";
      typing := false;
      typingTimerArmed := false;
      theyTyping := false;
      theyTypingTimerArmed := false;
      seenAt := None;
      listening := false;
      sent := [];
    }

    /** The token is set; `jwtId` is `payload._id || payload.id` of its decoded payload (None when it does not decode). */
    method SetToken(t: string, jwtId: Option<string>)
      requires Valid()
      modifies this
      ensures Valid()
      ensures token == Some(t)
      ensures myId == (if Truthy(Some(t)) && Truthy(jwtId) then jwtId else None)
      ensures State() == old(State()).(token := token, myId := myId)
    {
      token := Some(t);
      myId := if t != "" && Truthy(jwtId) then jwtId else None;
    }

    /** The history effect, with the two replies. */
    method Load(history: HistoryOutcome, conv: Option<ConversationReply>)
      requires Valid()
      modifies this
      ensures Valid()
      ensures State() == old(State()).(messages := LoadOutcome(conversationId, history, conv, old(messages), old(conversation)).messages,
                                        conversation := LoadOutcome(conversationId, history, conv, old(messages), old(conversation)).conversation,
                                        error := LoadOutcome(conversationId, history, conv, old(messages), old(conversation)).error,
                                        loading := false)
    {
      loading := true;
      error := "";
      var r := LoadOutcome(conversationId, history, conv, messages, conversation);
      messages, conversation, error, loading := r.messages, r.conversation, r.error, false;
    }

    /** `joinIfConnected` (also the "connect" and "reconnect" handlers). */
    method JoinIfConnected()
      requires Valid()
      modifies this
      ensures Valid()
      ensures sent == old(sent) + (if sock.connected then [Join(conversationId)] else [])
      ensures State() == old(State()).(sent := sent)
    {
      if sock.connected {
        LastTypingSignalAppend(sent, Join(conversationId));
        sent := sent + [Join(conversationId)];
      }
    }

    /**
     * The socket effect: with an id and a token, hand the token to the socket
     * (which always reconnects), try to join, and register the handlers.
     * The socket is never connected right after the hand-over, so the join
     * waits for the "connect" event.
     */
    method AttachSocket()
      requires Valid()
      modifies this, sock, sock.browser
      ensures Valid()
      ensures !Truthy(conversationId) || !Truthy(token) ==>
                listening == old(listening) && sock.auth == old(sock.auth) && sock.connected == old(sock.connected)
                && sock.active == old(sock.active) && sock.calls == old(sock.calls)
                && sock.browser.storage == old(sock.browser.storage)
      ensures Truthy(conversationId) && Truthy(token) ==>
                listening && !sock.connected && sock.active && sock.auth == token
                && sock.calls == old(sock.calls) + (if old(sock.connected) then [Socket.Disconnect, Socket.Connect] else [Socket.Connect])
                && Get(sock.browser.storage, TokenKey) == token
                && (forall k :: k != TokenKey ==> Get(sock.browser.storage, k) == Get(old(sock.browser.storage), k))
      ensures sock.browser.authHeader == old(sock.browser.authHeader)
      ensures State() == old(State()).(listening := listening)
    {
      if !Truthy(conversationId) || !Truthy(token) {
        return;
      }
      sock.RefreshSocketAuth(token);
      JoinIfConnected();
      listening := true;
    }

    /** `onMsg`: a message for this conversation goes to the end of the history; any other is ignored. */
    method OnMessage(m: Message)
      requires Valid() && listening
      modifies this
      ensures Valid()
      ensures TargetOf(m) == conversationId ==> messages == old(messages) + [m]
      ensures TargetOf(m) != conversationId ==> messages == old(messages)
      ensures messages == Arrive(old(messages), m, conversationId)
      ensures State() == old(State()).(messages := messages)
    {
      if TargetOf(m) == conversationId {
        messages := messages + [m];
      }
    }

    /** `onTyping`: the peer's flag follows the event, with a fresh expiry timer only when it is up. */
    method OnTyping(ev: TypingEvent)
      requires Valid() && listening
      modifies this
      ensures Valid()
      ensures ev.conversationId != conversationId || SameUser(ev.userId, myId) ==>
                theyTyping == old(theyTyping) && theyTypingTimerArmed == old(theyTypingTimerArmed)
      ensures ev.conversationId == conversationId && !SameUser(ev.userId, myId) ==>
                theyTyping == ev.isTyping && theyTypingTimerArmed == ev.isTyping
      ensures State() == old(State()).(theyTyping := theyTyping, theyTypingTimerArmed := theyTypingTimerArmed)
    {
      if ev.conversationId != conversationId {
        return;
      }
      if SameUser(ev.userId, myId) {
        return;
      }
      theyTyping := ev.isTyping;
      theyTypingTimerArmed := ev.isTyping;
    }

    /** The 1500 ms timer for the peer's flag fires. */
    method TheyTypingExpired()
      requires Valid() && theyTypingTimerArmed
      modifies this
      ensures Valid() && !theyTyping && !theyTypingTimerArmed
      ensures State() == old(State()).(theyTyping := theyTyping, theyTypingTimerArmed := theyTypingTimerArmed)
    {
      theyTyping := false;
      theyTypingTimerArmed := false;
    }

    /** `onRead`: another user's marker for this conversation replaces `seenAt` (last writer wins). */
    method OnRead(ev: ReadEvent)
      requires Valid() && listening
      modifies this
      ensures Valid()
      ensures ev.conversationId == conversationId && !SameUser(ev.userId, myId) && ev.at.Some? ==> seenAt == ev.at
      ensures ev.conversationId != conversationId || SameUser(ev.userId, myId) || ev.at.None? ==> seenAt == old(seenAt)
      ensures State() == old(State()).(seenAt := seenAt)
    {
      if ev.conversationId != conversationId || SameUser(ev.userId, myId) {
        return;
      }
      if ev.at.Some? {
        seenAt := ev.at;
      }
    }

    /**
     * The mark-read effect: when the last message is not mine and the socket
     * is connected, one read POST and one read emit carry the same time.
     */
    method MarkRead(now: nat) returns (fired: bool)
      requires Valid()
      modifies this
      ensures Valid()
      ensures fired <==> |messages| > 0 && sock.connected && !SentByMe(messages[|messages| - 1], myId)
      ensures fired ==> sent == old(sent) + [ReadPost(conversationId, When(messages[|messages| - 1], now)),
                                            ReadSignal(conversationId, When(messages[|messages| - 1], now))]
      ensures !fired ==> sent == old(sent)
      ensures State() == old(State()).(sent := sent)
    {
      var marks := ReadMarks(conversationId, messages, sock.connected, myId, now);
      ReadMarksKeepTyping(sent, marks);
      sent := sent + marks;
      fired := marks != [];
    }

    /**
     * `sendMessage`: a non-blank text, outside a self chat, on a connected
     * socket is emitted trimmed, followed by a typing-false signal. The
     * history waits for the server's echo, and the typing timer is left armed.
     */
    method SendMessage(now: nat) returns (emitted: bool)
      requires Valid()
      modifies this
      ensures Valid()
      ensures emitted <==> Trim(old(text)) != "" && !IsSelfChat(myId, conversation, messages) && sock.connected
      ensures emitted ==> sent == old(sent) + [SendText(conversationId, Trim(old(text)), now),
                                              TypingSignal(conversationId, false)]
                          && text == "" && !typing
      ensures !emitted ==> sent == old(sent) && text == old(text) && typing == old(typing)
      ensures State() == old(State()).(sent := sent, text := text, typing := typing)
    {
      var textTrim := Trim(text);
      if textTrim == "" || IsSelfChat(myId, conversation, messages) || !sock.connected {
        return false;
      }
      var first := SendText(conversationId, textTrim, now);
      var second := TypingSignal(conversationId, false);
      LastTypingSignalAppend(sent + [first], second);
      sent := sent + [first, second];
      assert sent == old(sent) + [first] + [second];
      text := "";
      typing := false;
      emitted := true;
    }

    /**
     * A keystroke: the text changes, then `handleTyping` runs; it signals
     * typing-true only on the rising edge and re-arms the one timer each time.
     */
    method Keystroke(newText: string)
      requires Valid()
      modifies this
      ensures Valid()
      ensures text == newText
      ensures !sock.connected || IsSelfChat(myId, conversation, messages) ==>
                sent == old(sent) && typing == old(typing) && typingTimerArmed == old(typingTimerArmed)
      ensures sock.connected && !IsSelfChat(myId, conversation, messages) ==>
                typing && typingTimerArmed
                && sent == old(sent) + (if old(typing) then [] else [TypingSignal(conversationId, true)])
      ensures State() == old(State()).(text := text, typing := typing, typingTimerArmed := typingTimerArmed, sent := sent)
    {
      text := newText;
      if !sock.connected || IsSelfChat(myId, conversation, messages) {
        return;
      }
      if !typing {
        typing := true;
        LastTypingSignalAppend(sent, TypingSignal(conversationId, true));
        sent := sent + [TypingSignal(conversationId, true)];
      }
      typingTimerArmed := true;
    }

    /** The 1000 ms typing timer fires: the flag drops and the peer is told. */
    method TypingExpired()
      requires Valid() && typingTimerArmed
      modifies this
      ensures Valid()
      ensures !typing && !typingTimerArmed
      ensures sent == old(sent) + [TypingSignal(conversationId, false)]
      ensures State() == old(State()).(typing := typing, typingTimerArmed := typingTimerArmed, sent := sent)
    {
      typing := false;
      typingTimerArmed := false;
      LastTypingSignalAppend(sent, TypingSignal(conversationId, false));
      sent := sent + [TypingSignal(conversationId, false)];
    }

    /** The composer loses focus: the timer is cancelled, and a raised flag is lowered and signalled. */
    method Blur()
      requires Valid()
      modifies this
      ensures Valid()
      ensures !typing && !typingTimerArmed
      ensures sent == old(sent) + (if old(typing) then [TypingSignal(conversationId, false)] else [])
      ensures State() == old(State()).(typing := typing, typingTimerArmed := typingTimerArmed, sent := sent)
    {
      typingTimerArmed := false;
      if typing {
        typing := false;
        LastTypingSignalAppend(sent, TypingSignal(conversationId, false));
        sent := sent + [TypingSignal(conversationId, false)];
      }
    }

    /** The socket effect's cleanup: handlers go, the page leaves the room, the peer's timer is cancelled. */
    method Teardown()
      requires Valid()
      modifies this
      ensures Valid()
      ensures !listening && !theyTypingTimerArmed
      ensures sent == old(sent) + [Leave(conversationId)]
      ensures State() == old(State()).(sent := sent, theyTypingTimerArmed := theyTypingTimerArmed, listening := listening)
    {
      LastTypingSignalAppend(sent, Leave(conversationId));
      sent := sent + [Leave(conversationId)];
      theyTypingTimerArmed := false;
      listening := false;
    }
  }

  /** Two read markers in a row: the later event wins even when it is older, so the marker can move back. */
  method ReadMarkerMovesBack(s: Socket.SocketClient) returns (first: Option<nat>, second: Option<nat>)
    requires s.Valid()
    ensures first == Some(10) && second == Some(5)
  {
    var v := new ChatView(Some("c"), s, None);
    v.listening := true;
    v.OnRead(ReadEvent(Some("c"), Some("peer"), Some(10)));
    first := v.seenAt;
    v.OnRead(ReadEvent(Some("c"), Some("peer"), Some(5)));
    second := v.seenAt;
  }
}
