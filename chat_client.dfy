/**
 * The web client's channel chat (SafeZone-Web/src/hooks/useChat.js): the channel socket, what
 * an incoming frame does to the message list and the typing set, the typing throttle, sending,
 * and the local delete and edit updates. Sockets, `fetch`, timers and sounds are recorded, not
 * performed.
 */
module ChatClient {
  import opened Common
  import Api

  /** A channel of the selected server; its id is the uuid text the server created it with. */
  datatype Channel = Channel(id: string, kind: string)

  /** A message of the list; fields a frame does not carry are absent. */
  datatype Message = Message(
    id: Option<int>, sender: string, text: Option<string>, content: Option<string>,
    attachmentUrl: Option<string>, attachmentType: Option<string>, attachmentName: Option<string>,
    timestamp: Option<string>)

  /** The reply of a successful upload, kept as the pending attachment. */
  datatype Upload = Upload(url: Option<string>, kind: Option<string>, name: Option<string>)

  /** A frame of the channel socket, after `JSON.parse`. */
  datatype Incoming =
    | ChatFrame(sender: string, text: Option<string>, url: Option<string>, fileType: Option<string>, fileName: Option<string>)
    | HistoryFrame(messages: Option<seq<Message>>)
    | TypingFrame(typist: string)
    | OtherFrame

  datatype Outgoing =
    | Typing(sender: string)
    | Chat(text: string, sender: string, uuid: string, url: Option<string>, fileType: Option<string>, fileName: Option<string>)

  /** The socket a frame goes out on: the channel's own, or the voice room's. */
  datatype Socket = ChatSocket | RoomSocket

  datatype Request =
    | HistoryRequest(token: Option<string>, channelId: string)
    | UploadRequest(token: Option<string>)
    | DeleteRequest(token: Option<string>, messageId: Option<int>)
    | EditRequest(token: Option<string>, messageId: Option<int>, content: string)

  const TypingTimeout := 3000
  const TypingInterval := 2000

  // ---------------------------------------------------------------------------
  // The list updates of delete and edit.
  // ---------------------------------------------------------------------------

  function IdIsNot(id: Option<int>): Message -> bool {
    (m: Message) => m.id != id
  }

  /** `prev.filter(m => m.id !== msgId)`. */
  function Without(ms: seq<Message>, id: Option<int>): (r: seq<Message>)
    ensures forall m :: m in r <==> m in ms && m.id != id
    ensures |r| <= |ms|
  {
    Filter(ms, IdIsNot(id))
  }

  function EditIf(id: Option<int>, newText: string): Message -> Message {
    (m: Message) => if m.id == id then m.(content := Some(newText), text := Some(newText)) else m
  }

  /** `prev.map(m => m.id === editingMessageId ? { ...m, content: editText, text: editText } : m)`. */
  function Edited(ms: seq<Message>, id: Option<int>, newText: string): (r: seq<Message>)
    ensures |r| == |ms|
    ensures forall i :: 0 <= i < |ms| && ms[i].id != id ==> r[i] == ms[i]
    ensures forall i :: 0 <= i < |ms| && ms[i].id == id ==>
      r[i].content == Some(newText) && r[i].text == Some(newText) && r[i].(content := ms[i].content, text := ms[i].text) == ms[i]
  {
    MapSeq(ms, EditIf(id, newText))
  }

  /** An edit touches nothing but its own message: deleting that message afterwards leaves what deleting it at once leaves. */
  lemma {:induction false} EditThenDelete(ms: seq<Message>, id: Option<int>, newText: string)
    ensures Without(Edited(ms, id, newText), id) == Without(ms, id)
  {
    if ms != [] {
      var t := ms[1..];
      EditThenDelete(t, id, newText);
      var em := Edited(ms, id, newText);
      assert em[1..] == Edited(t, id, newText);
      assert em[0].id == ms[0].id;
      if ms[0].id == id {
        assert Without(em, id) == Without(em[1..], id);
        assert Without(ms, id) == Without(t, id);
      } else {
        assert em[0] == ms[0];
        assert Without(em, id) == [ms[0]] + Without(em[1..], id);
        assert Without(ms, id) == [ms[0]] + Without(t, id);
      }
    }
  }

  /** Submitting the same edit twice changes nothing more. */
  lemma EditIdempotent(ms: seq<Message>, id: Option<int>, newText: string)
    ensures Edited(Edited(ms, id, newText), id, newText) == Edited(ms, id, newText)
  {
  }

  /** `msg.content || msg.text || ""`: the text the edit box starts with. */
  function EditSource(m: Message): (r: string)
    ensures Truthy(m.content) ==> r == m.content.value
    ensures !Truthy(m.content) && Truthy(m.text) ==> r == m.text.value
    ensures !Truthy(m.content) && !Truthy(m.text) ==> r == ""
  {
    if Truthy(m.content) then m.content.value else if Truthy(m.text) then m.text.value else ""
  }

  // ---------------------------------------------------------------------------
  // The typing throttle over a run of keystrokes.
  // ---------------------------------------------------------------------------

  /**
   * The times, among keystrokes at `times`, at which `handleTyping` sends a typing frame, when
   * the last send was at `last`: a keystroke sends when more than 2000 ms have passed.
   */
  function Throttled(last: int, times: seq<int>): seq<int>
    decreases |times|
  {
    if times == [] then []
    else if times[0] - last > TypingInterval then [times[0]] + Throttled(times[0], times[1..])
    else Throttled(last, times[1..])
  }

  /** Any two typing frames the throttle lets through are more than 2000 ms apart, and so is the first from the previous one. */
  lemma {:induction false} ThrottledSpacing(last: int, times: seq<int>)
    ensures var r := Throttled(last, times);
      && (r != [] ==> r[0] - last > TypingInterval)
      && forall i :: 0 <= i < |r| - 1 ==> r[i + 1] - r[i] > TypingInterval
    decreases |times|
  {
    if times != [] {
      if times[0] - last > TypingInterval {
        ThrottledSpacing(times[0], times[1..]);
        var r := Throttled(last, times);
        var rest := Throttled(times[0], times[1..]);
        assert r == [times[0]] + rest;
        forall i | 0 <= i < |r| - 1 ensures r[i + 1] - r[i] > TypingInterval {
          if i > 0 { assert r[i] == rest[i - 1] && r[i + 1] == rest[i]; }
        }
      } else {
        ThrottledSpacing(last, times[1..]);
      }
    }
  }

  /** Every throttled time is one of the keystrokes. */
  lemma {:induction false} ThrottledSubset(last: int, times: seq<int>)
    ensures forall t :: t in Throttled(last, times) ==> t in times
    decreases |times|
  {
    if times != [] {
      ThrottledSubset(last, times[1..]);
      ThrottledSubset(times[0], times[1..]);
    }
  }

  // ---------------------------------------------------------------------------
  // The hook's state.
  // ---------------------------------------------------------------------------

  class Chat {
    /** `chatWs.current`: the URL of the channel socket, if any. */
    var chatSocket: Option<string>
    var chatOpen: bool
    /** `roomWs.current?.readyState === OPEN`: the voice room's socket, owned elsewhere. */
    var roomOpen: bool
    var closed: seq<string>
    var messages: seq<Message>
    var inputText: string
    var attachment: Option<Upload>
    var isUploading: bool
    /** `lastTypingTimeRef.current`. */
    var lastTyping: int
    var typingUsers: set<string>
    /** `typingTimeouts.current`: for each typist, the time its pending timeout fires. */
    var typingDeadlines: map<string, int>
    var contextMenu: Option<Message>
    var editingId: Option<int>
    var editText: string
    var sent: seq<(Socket, Outgoing)>
    var requests: seq<Request>
    var sounds: nat
    /** How often `onUnreadMessage` was called. */
    var unreadNotices: nat
    var errorToasts: seq<string>

    /** A typist stays in the set exactly as long as its timeout is pending. */
    ghost predicate Valid()
      reads this
    {
      typingUsers == typingDeadlines.Keys
    }

    constructor()
      ensures Valid()
      ensures chatSocket == None && !chatOpen && !roomOpen && closed == [] && messages == [] && inputText == ""
      ensures attachment == None && !isUploading && lastTyping == 0 && typingUsers == {} && typingDeadlines == map[]
      ensures contextMenu == None && editingId == None && editText == "" && sent == [] && requests == []
      ensures sounds == 0 && unreadNotices == 0 && errorToasts == []
    {
      chatSocket, chatOpen, roomOpen, closed := None, false, false, [];
      messages, inputText, attachment, isUploading := [], "", None, false;
      lastTyping, typingUsers, typingDeadlines := 0, {}, map[];
      contextMenu, editingId, editText := None, None, "";
      sent, requests, sounds, unreadNotices, errorToasts := [], [], 0, 0, [];
    }

    /** `connectToChannel(channel)`: nothing for no channel or a voice channel; otherwise the old socket closes and a new one opens. */
    method ConnectToChannel(channel: Option<Channel>, uuid: string, pageProtocol: string)
      modifies this`chatSocket, this`chatOpen, this`closed
      ensures channel.None? || channel.value.kind == "voice" ==>
        chatSocket == old(chatSocket) && chatOpen == old(chatOpen) && closed == old(closed)
      ensures channel.Some? && channel.value.kind != "voice" ==>
        && chatSocket == Some(Api.GetUrl("/ws/room/" + channel.value.id + "/" + uuid, "ws", pageProtocol))
        && !chatOpen
        && closed == old(closed) + (if old(chatSocket).Some? then [old(chatSocket).value] else [])
    {
      if channel.None? || channel.value.kind == "voice" {
        return;
      }
      if chatSocket.Some? {
        closed := closed + [chatSocket.value];
      }
      chatSocket := Some(Api.GetUrl("/ws/room/" + channel.value.id + "/" + uuid, "ws", pageProtocol));
      chatOpen := false;
    }

    /** The channel socket's open event. */
    method ChatOpened()
      modifies this`chatOpen
      ensures chatOpen
    {
      chatOpen := true;
    }

    /** A `chat` frame at ISO time `stamp`: one message joins the list; the sound and the unread callback only for someone else's. */
    method OnChat(sender: string, text: Option<string>, url: Option<string>, fileType: Option<string>, fileName: Option<string>,
                  me: string, hasUnreadCallback: bool, stamp: string)
      modifies this`messages, this`sounds, this`unreadNotices
      ensures messages == old(messages) + [Message(None, sender, text, None, url, fileType, fileName, Some(stamp))]
      ensures sounds == old(sounds) + (if sender != me then 1 else 0)
      ensures unreadNotices == old(unreadNotices) + (if sender != me && hasUnreadCallback then 1 else 0)
    {
      if sender != me {
        sounds := sounds + 1;
        if hasUnreadCallback {
          unreadNotices := unreadNotices + 1;
        }
      }
      messages := messages + [Message(None, sender, text, None, url, fileType, fileName, Some(stamp))];
    }

    /** A `typing` frame at time `now`: the typist joins the set and its timeout is replaced by one 3000 ms from now. */
    method OnTyping(typist: string, now: int)
      requires Valid()
      modifies this`typingUsers, this`typingDeadlines
      ensures Valid()
      ensures typingUsers == old(typingUsers) + {typist}
      ensures typingDeadlines == old(typingDeadlines)[typist := now + TypingTimeout]
    {
      typingUsers := typingUsers + {typist};
      typingDeadlines := typingDeadlines[typist := now + TypingTimeout];
    }

    /** `handleIncomingMessage(msg)`. */
    method HandleIncoming(frame: Incoming, me: string, hasUnreadCallback: bool, stamp: string, now: int)
      requires Valid()
      modifies this`messages, this`sounds, this`unreadNotices, this`typingUsers, this`typingDeadlines
      ensures Valid()
      ensures frame.ChatFrame? ==> messages == old(messages) + [Message(None, frame.sender, frame.text, None, frame.url, frame.fileType, frame.fileName, Some(stamp))]
      ensures frame.ChatFrame? ==> sounds == old(sounds) + (if frame.sender != me then 1 else 0)
      ensures frame.HistoryFrame? ==> messages == frame.messages.GetOr([])
      ensures frame.TypingFrame? ==>
        && messages == old(messages) && typingUsers == old(typingUsers) + {frame.typist}
        && typingDeadlines == old(typingDeadlines)[frame.typist := now + TypingTimeout]
      ensures !frame.TypingFrame? ==> typingUsers == old(typingUsers) && typingDeadlines == old(typingDeadlines)
      ensures !frame.ChatFrame? ==> sounds == old(sounds) && unreadNotices == old(unreadNotices)
      ensures frame.OtherFrame? ==> messages == old(messages)
    {
      match frame
      case ChatFrame(sender, text, url, fileType, fileName) => OnChat(sender, text, url, fileType, fileName, me, hasUnreadCallback, stamp);
      case HistoryFrame(ms) => messages := ms.GetOr([]);
      case TypingFrame(typist) => OnTyping(typist, now);
      case OtherFrame =>
    }

    /** The pending typing timeouts whose time has come run: their typists leave the set. */
    method TypingTimeoutsFire(now: int)
      requires Valid()
      modifies this`typingUsers, this`typingDeadlines
      ensures Valid()
      ensures forall u :: u in typingUsers <==> u in old(typingDeadlines) && old(typingDeadlines)[u] > now
      ensures forall u :: u in typingDeadlines ==> typingDeadlines[u] == old(typingDeadlines)[u]
    {
      typingDeadlines := map u | u in typingDeadlines && typingDeadlines[u] > now :: typingDeadlines[u];
      typingUsers := typingDeadlines.Keys;
    }

    /** `handleTyping(e)` at time `now`: the input always follows; a typing frame goes out at most once per 2000 ms. */
    method HandleTyping(value: string, me: string, now: int)
      modifies this`inputText, this`sent, this`lastTyping
      ensures inputText == value
      ensures now - old(lastTyping) > TypingInterval ==>
        && lastTyping == now
        && sent == old(sent) + (if chatOpen then [(ChatSocket, Typing(me))] else if roomOpen then [(RoomSocket, Typing(me))] else [])
      ensures now - old(lastTyping) <= TypingInterval ==> lastTyping == old(lastTyping) && sent == old(sent)
    {
      inputText := value;
      if now - lastTyping > TypingInterval {
        if chatOpen {
          sent := sent + [(ChatSocket, Typing(me))];
        } else if roomOpen {
          sent := sent + [(RoomSocket, Typing(me))];
        }
        lastTyping := now;
      }
    }

    /**
     * `sendChatMessage()`: nothing with neither text nor attachment; otherwise one chat frame,
     * on the channel socket when open, else on the room socket when open, and the input and the
     * attachment are cleared.
     */
    method SendChatMessage(me: string, uuid: string)
      modifies this`sent, this`inputText, this`attachment
      ensures old(inputText) == "" && old(attachment).None? ==> sent == old(sent) && inputText == old(inputText) && attachment == old(attachment)
      ensures old(inputText) != "" || old(attachment).Some? ==>
        && var a := old(attachment);
        var frame := Chat(old(inputText), me, uuid,
          if a.Some? then a.value.url else None,
          if a.Some? then a.value.kind else None,
          if a.Some? then a.value.name else None);
        && sent == old(sent) + (if chatSocket.Some? && chatOpen then [(ChatSocket, frame)] else if roomOpen then [(RoomSocket, frame)] else [])
        && inputText == "" && attachment == None
    {
      if inputText == "" && attachment.None? {
        return;
      }
      var a := attachment;
      var frame := Chat(inputText, me, uuid,
        if a.Some? then a.value.url else None,
        if a.Some? then a.value.kind else None,
        if a.Some? then a.value.name else None);
      if chatSocket.Some? && chatOpen {
        sent := sent + [(ChatSocket, frame)];
      } else if roomOpen {
        sent := sent + [(RoomSocket, frame)];
      }
      inputText := "";
      attachment := None;
    }

    /** `fetchChannelMessages(channelId)`: nothing without a token. */
    method FetchChannelMessages(token: Option<string>, channelId: string)
      modifies this`requests
      ensures requests == old(requests) + (if Truthy(token) then [HistoryRequest(token, channelId)] else [])
    {
      if Truthy(token) {
        requests := requests + [HistoryRequest(token, channelId)];
      }
    }

    /** The reply to the history request: on success it replaces the list. */
    method ChannelMessagesArrived(status: string, ms: seq<Message>)
      modifies this`messages
      ensures messages == if status == "success" then ms else old(messages)
    {
      if status == "success" {
        messages := ms;
      }
    }

    /** `handleFileSelect(e)`: with a file, the upload starts. */
    method HandleFileSelect(hasFile: bool, token: Option<string>)
      modifies this`isUploading, this`requests
      ensures !hasFile ==> isUploading == old(isUploading) && requests == old(requests)
      ensures hasFile ==> isUploading && requests == old(requests) + [UploadRequest(token)]
    {
      if !hasFile {
        return;
      }
      isUploading := true;
      requests := requests + [UploadRequest(token)];
    }

    /** The upload's reply: the attachment on success, an error toast otherwise; either way the upload is over. */
    method UploadFinished(status: string, upload: Upload, message: string)
      modifies this`attachment, this`errorToasts, this`isUploading
      ensures status == "success" ==> attachment == Some(upload) && errorToasts == old(errorToasts)
      ensures status != "success" ==> attachment == old(attachment) && errorToasts == old(errorToasts) + ["Y\U{FC}kleme ba\U{15F}ar\U{131}s\U{131}z: " + message]
      ensures !isUploading
    {
      if status == "success" {
        attachment := Some(upload);
      } else {
        errorToasts := errorToasts + ["Y\U{FC}kleme ba\U{15F}ar\U{131}s\U{131}z: " + message];
      }
      isUploading := false;
    }

    /** `handleMessageContextMenu(e, msg)`: opens only on the user's own message, or for a system administrator. */
    method HandleMessageContextMenu(m: Message, me: string, isSysadmin: bool)
      modifies this`contextMenu
      ensures m.sender != me && !isSysadmin ==> contextMenu == old(contextMenu)
      ensures m.sender == me || isSysadmin ==> contextMenu == Some(m)
    {
      if m.sender != me && !isSysadmin {
        return;
      }
      contextMenu := Some(m);
    }

    /** `handleDeleteMessage()`: nothing without an open menu; otherwise the request, the local removal and the menu closes. */
    method HandleDeleteMessage(token: Option<string>)
      modifies this`requests, this`messages, this`contextMenu
      ensures old(contextMenu).None? ==> requests == old(requests) && messages == old(messages) && contextMenu == None
      ensures old(contextMenu).Some? ==>
        && requests == old(requests) + [DeleteRequest(token, old(contextMenu).value.id)]
        && messages == Without(old(messages), old(contextMenu).value.id)
        && contextMenu == None
    {
      if contextMenu.None? {
        return;
      }
      var id := contextMenu.value.id;
      requests := requests + [DeleteRequest(token, id)];
      messages := Without(messages, id);
      contextMenu := None;
    }

    /** `startEditing()`, which reads the open menu's message. */
    method StartEditing()
      requires contextMenu.Some?
      modifies this`editingId, this`editText, this`contextMenu
      ensures editingId == old(contextMenu).value.id
      ensures editText == EditSource(old(contextMenu).value)
      ensures contextMenu == None
    {
      editingId := contextMenu.value.id;
      editText := EditSource(contextMenu.value);
      contextMenu := None;
    }

    /** `submitEdit()`: the request, the local edit, and editing ends. */
    method SubmitEdit(token: Option<string>)
      modifies this`requests, this`messages, this`editingId
      ensures requests == old(requests) + [EditRequest(token, old(editingId), editText)]
      ensures messages == Edited(old(messages), old(editingId), editText)
      ensures editingId == None
    {
      requests := requests + [EditRequest(token, editingId, editText)];
      messages := Edited(messages, editingId, editText);
      editingId := None;
    }
  }
}
