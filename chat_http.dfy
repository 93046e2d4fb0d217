/**
 * The HTTP side of channel chat (SafeZone-Server/routers/chat.py): the message list of a
 * channel, the name, URL and kind an uploaded attachment gets, and the sender-only edit and
 * delete of a channel message.
 */
module ChatHttp {
  import opened Common
  import opened Store

  const ContentNull := "NOT NULL constraint failed: channel_messages.content"
  const UploadsPrefix := "/uploads/"
  /** `LIMIT 1000` of the message list. */
  const PageSize := 1000
  const ImageExtensions := ["jpg", "jpeg", "png", "gif", "webp"]
  const VideoExtensions := ["mp4", "webm", "mov"]

  // ---------------------------------------------------------------------------
  // get_channel_messages.
  // ---------------------------------------------------------------------------

  /** One message of the list, as the endpoint replies with it. */
  datatype MessageRow = MessageRow(
    id: int, sender: string, text: string, timestamp: string,
    attachmentUrl: Option<string>, attachmentType: Option<string>, attachmentName: Option<string>,
    editedAt: Option<string>)

  /**
   * `channel_messages cm JOIN users u ON cm.sender_id = u.id WHERE cm.channel_id = ?` in
   * timestamp order, which is the order of insertion: each message with its sender's name.
   */
  function Joined(cms: seq<ChannelMessage>, users: seq<User>, channelId: string): (r: seq<(ChannelMessage, string)>)
    ensures forall k :: 0 <= k < |r| ==>
      (&& r[k].0 in cms && r[k].0.channelId == channelId
       && UserById(users, r[k].0.senderId).Some? && r[k].1 == UserById(users, r[k].0.senderId).value.username)
  {
    if cms == [] then []
    else
      var m := cms[0];
      var u := UserById(users, m.senderId);
      (if m.channelId == channelId && u.Some? then [(m, u.value.username)] else []) + Joined(cms[1..], users, channelId)
  }

  /** No message of the channel whose sender exists is left out of the join. */
  lemma {:induction false} JoinedComplete(cms: seq<ChannelMessage>, users: seq<User>, channelId: string, m: ChannelMessage)
    requires m in cms && m.channelId == channelId && UserById(users, m.senderId).Some?
    ensures (m, UserById(users, m.senderId).value.username) in Joined(cms, users, channelId)
  {
    if cms[0] != m {
      JoinedComplete(cms[1..], users, channelId, m);
    }
  }

  function ToRow(j: (ChannelMessage, string)): MessageRow {
    var m := j.0;
    MessageRow(m.id, j.1, m.content, m.timestamp, m.attachmentUrl, m.attachmentType, m.attachmentName, m.editedAt)
  }

  /** `get_channel_messages`: the caller's token, then at most a page of the channel's messages, oldest first. */
  method GetChannelMessages(db: Db, channelId: string, token: string) returns (r: Reply<seq<MessageRow>>)
    ensures UserByToken(db.users, Some(token)).None? ==> r == Fail(InvalidToken)
    ensures UserByToken(db.users, Some(token)).Some? ==>
      r == Success(MapSeq(FirstN(Joined(db.channelMessages, db.users, channelId), PageSize), ToRow))
    ensures r.Success? ==> |r.body| <= PageSize
  {
    if UserByToken(db.users, Some(token)).None? {
      return Fail(InvalidToken);
    }
    var rows := FirstN(Joined(db.channelMessages, db.users, channelId), PageSize);
    var messages := AppendEach(rows, ToRow);
    r := Success(messages);
  }

  // ---------------------------------------------------------------------------
  // chat_upload.
  // ---------------------------------------------------------------------------

  /** The `type` of an upload, chosen by the lower-cased extension. */
  function FileKind(ext: string): (k: string)
    ensures k == "image" <==> LowerAscii(ext) in ImageExtensions
    ensures k == "video" <==> LowerAscii(ext) in VideoExtensions
    ensures k == "file" <==> LowerAscii(ext) !in ImageExtensions && LowerAscii(ext) !in VideoExtensions
  {
    var lower := LowerAscii(ext);
    if lower in ImageExtensions then "image"
    else if lower in VideoExtensions then "video"
    else "file"
  }

  lemma {:induction false} LowerAsciiIdempotent(s: string)
    ensures LowerAscii(LowerAscii(s)) == LowerAscii(s)
  {
    if s != [] {
      LowerAsciiIdempotent(s[1..]);
    }
  }

  /** The kind ignores the case of the extension: "PNG" is an image like "png". */
  lemma FileKindIgnoresCase(ext: string)
    ensures FileKind(LowerAscii(ext)) == FileKind(ext)
  {
    LowerAsciiIdempotent(ext);
  }

  /** The reply of `chat_upload`: where the file is served, its kind, and the name it was uploaded under. */
  datatype Upload = Upload(url: string, kind: string, name: string)

  /** `f"chat_{user['id']}_{uuid.uuid4().hex[:8]}.{file_ext}"`. */
  function ChatFileName(userId: int, uuidHex: string, uploadName: string): string {
    "chat_" + IntToString(userId) + "_" + FirstN(uuidHex, 8) + "." + AfterLast(uploadName, '.')
  }

  /** `chat_upload`: only a user holding the token gets a URL; nothing in the database changes. */
  function ChatUpload(users: seq<User>, token: string, uuidHex: string, uploadName: string): Reply<Upload> {
    match UserByToken(users, Some(token))
    case None => Fail(InvalidToken)
    case Some(user) =>
      Success(Upload(UploadsPrefix + ChatFileName(user.id, uuidHex, uploadName), FileKind(AfterLast(uploadName, '.')), uploadName))
  }

  /**
   * An upload is served as "/uploads/chat_<id>_<8 hex>.<ext>": the uploader's id first and the
   * uploaded file's extension last, so the kind read back from the URL is the kind replied.
   */
  lemma ChatUrlShape(userId: int, uuidHex: string, uploadName: string)
    requires |uuidHex| >= 8
    ensures var url := UploadsPrefix + ChatFileName(userId, uuidHex, uploadName);
      && StartsWith(url, UploadsPrefix + ("chat_" + IntToString(userId) + "_"))
      && AfterLast(url, '.') == AfterLast(uploadName, '.')
      && FileKind(AfterLast(url, '.')) == FileKind(AfterLast(uploadName, '.'))
  {
    DottedNameShape(UploadsPrefix, "chat_" + IntToString(userId) + "_", FirstN(uuidHex, 8), AfterLast(uploadName, '.'));
  }

  // ---------------------------------------------------------------------------
  // edit_message and delete_message.
  // ---------------------------------------------------------------------------

  /** `SELECT sender_id FROM channel_messages WHERE id = ?`: a NULL id matches nothing. */
  function MessageById(cms: seq<ChannelMessage>, id: Option<int>): (r: Option<ChannelMessage>)
    ensures r.Some? ==> r.value in cms && id == Some(r.value.id)
    ensures r.None? <==> id.None? || forall i :: 0 <= i < |cms| ==> cms[i].id != id.value
  {
    if id.None? then None else FindFirst(cms, (m: ChannelMessage) => m.id == id.value)
  }

  /**
   * The checks of `edit_message` and `delete_message`: the caller, then the caller sent the
   * message. An unknown token is replied to with `tokenReply`: "Invalid token" on an edit, a bare
   * error on a delete.
   */
  function OwnMessageCheck(t: Tables, token: Option<string>, id: Option<int>, tokenReply: Option<string>): (r: Reply<ChannelMessage>)
    ensures r.Success? <==> UserByToken(t.users, token).Some? && MessageById(t.channelMessages, id).Some?
                            && MessageById(t.channelMessages, id).value.senderId == UserByToken(t.users, token).value.id
    ensures r.Success? ==> r.body == MessageById(t.channelMessages, id).value
    ensures r.Failure? ==> r.message == if UserByToken(t.users, token).None? then tokenReply else Some(Unauthorized)
  {
    match UserByToken(t.users, token)
    case None => Failure(tokenReply)
    case Some(user) =>
      match MessageById(t.channelMessages, id)
      case None => Fail(Unauthorized)
      case Some(m) => if m.senderId != user.id then Fail(Unauthorized) else Success(m)
  }

  /** `UPDATE channel_messages SET content = ?, edited_at = CURRENT_TIMESTAMP WHERE id = ?`. */
  function EditRows(cms: seq<ChannelMessage>, id: int, content: string, now: string): (r: seq<ChannelMessage>)
    ensures |r| == |cms|
    ensures forall i :: 0 <= i < |r| ==>
      r[i] == if cms[i].id == id then cms[i].(content := content, editedAt := Some(now)) else cms[i]
  {
    MapSeq(cms, (m: ChannelMessage) => if m.id == id then m.(content := content, editedAt := Some(now)) else m)
  }

  /** `DELETE FROM channel_messages WHERE id = ?`. */
  function DeleteRows(cms: seq<ChannelMessage>, id: int): (r: seq<ChannelMessage>)
    ensures forall m :: m in r <==> m in cms && m.id != id
  {
    Filter(cms, (m: ChannelMessage) => m.id != id)
  }

  lemma EditRowsValid(t: Tables, id: int, content: string, now: string)
    requires ValidTables(t)
    ensures ValidTables(t.(channelMessages := EditRows(t.channelMessages, id, content, now)))
  {
    var edited := EditRows(t.channelMessages, id, content, now);
    forall i, j | 0 <= i < j < |edited| ensures DistinctChannelMessages(edited[i], edited[j]) {
      assert DistinctChannelMessages(t.channelMessages[i], t.channelMessages[j]);
    }
  }

  lemma DeleteRowsValid(t: Tables, id: int)
    requires ValidTables(t)
    ensures ValidTables(t.(channelMessages := DeleteRows(t.channelMessages, id)))
  {
    var kept := DeleteRows(t.channelMessages, id);
    FilterPairwise(t.channelMessages, (m: ChannelMessage) => m.id != id, DistinctChannelMessages);
    assert forall i :: 0 <= i < |kept| ==> kept[i] in t.channelMessages;
  }

  /** After an edit the message is found with the new text and an edit time, and is still the caller's. */
  lemma EditedFound(t: Tables, m: ChannelMessage, content: string, now: string)
    requires ValidTables(t) && m in t.channelMessages
    ensures MessageById(EditRows(t.channelMessages, m.id, content, now), Some(m.id)) == Some(m.(content := content, editedAt := Some(now)))
  {
    var r := EditRows(t.channelMessages, m.id, content, now);
    var k :| 0 <= k < |t.channelMessages| && t.channelMessages[k] == m;
    assert r[k] == m.(content := content, editedAt := Some(now));
    var found := MessageById(r, Some(m.id)).value;
    var j :| 0 <= j < |r| && r[j] == found;
    assert t.channelMessages[j].id == m.id;
    ChannelMessageIdUnique(t.channelMessages, j, k);
  }

  /** After a delete the message is gone, so the same delete again is refused. */
  lemma DeleteTwiceUnauthorized(t: Tables, token: Option<string>, id: int, tokenReply: Option<string>)
    requires UserByToken(t.users, token).Some?
    ensures OwnMessageCheck(t.(channelMessages := DeleteRows(t.channelMessages, id)), token, Some(id), tokenReply) == Fail(Unauthorized)
  {
    var r := DeleteRows(t.channelMessages, id);
    assert forall i :: 0 <= i < |r| ==> r[i] in r;
  }

  /** `edit_message`: only the sender changes only that message's text and edit time. */
  method EditMessage(db: Db, token: Option<string>, id: Option<int>, content: Option<string>, now: string)
    returns (r: Reply<()>)
    requires db.Valid()
    modifies db`channelMessages
    ensures db.Valid()
    ensures match OwnMessageCheck(old(db.State()), token, id, Some(InvalidToken))
      case Failure(m) => r == Failure(m) && db.channelMessages == old(db.channelMessages)
      case Success(msg) =>
        if content.None? then r == Fail(ContentNull) && db.channelMessages == old(db.channelMessages)
        else r == Success(()) && db.channelMessages == EditRows(old(db.channelMessages), msg.id, content.value, now)
  {
    var check := OwnMessageCheck(db.State(), token, id, Some(InvalidToken));
    if check.Failure? {
      return Failure(check.message);
    }
    if content.None? {
      return Fail(ContentNull);
    }
    var msg := check.body;
    ghost var t := db.State();
    EditRowsValid(t, msg.id, content.value, now);
    db.channelMessages := EditRows(db.channelMessages, msg.id, content.value, now);
    assert db.State() == t.(channelMessages := EditRows(t.channelMessages, msg.id, content.value, now));
    r := Success(());
  }

  /** `delete_message`: only the sender removes only that message. */
  method DeleteMessage(db: Db, token: Option<string>, id: Option<int>) returns (r: Reply<()>)
    requires db.Valid()
    modifies db`channelMessages
    ensures db.Valid()
    ensures match OwnMessageCheck(old(db.State()), token, id, None)
      case Failure(m) => r == Failure(m) && db.channelMessages == old(db.channelMessages)
      case Success(msg) => r == Success(()) && db.channelMessages == DeleteRows(old(db.channelMessages), msg.id)
  {
    var check := OwnMessageCheck(db.State(), token, id, None);
    if check.Failure? {
      return Failure(check.message);
    }
    var msg := check.body;
    ghost var t := db.State();
    DeleteRowsValid(t, msg.id);
    db.channelMessages := DeleteRows(db.channelMessages, msg.id);
    assert db.State() == t.(channelMessages := DeleteRows(t.channelMessages, msg.id));
    r := Success(());
  }
}
