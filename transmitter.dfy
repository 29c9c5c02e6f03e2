/**
 * The correlation store of the anonymous relay and its primitives. Every relayed copy of a
 * message is one transmission row linking the sender's message (msg, chat, bot) to the copy
 * the receiver got; topics and allogroomings record who started a conversation and who
 * answered whom. Tables are sequences of rows in insertion order, which stands for the order
 * a query returns them in; `generate_uuid` is a counter whose next value no row holds yet.
 */
module MessageTransmitter {
  import opened Wrappers
  import opened Text
  import opened Telegram
  import opened SwiperUsernames

  type Id = nat

  /** A row of the transmission table; `redHeart` is absent on rows written by the older relay. */
  datatype Transmission = Transmission(
    id: Id,
    topicId: Option<Id>,
    subtopicId: Option<Id>,
    allogroomingId: Option<Id>,
    originalMsgTransId: Option<Id>,
    sender: Triple,
    receiver: Triple,
    replyToMsgId: Option<int>,
    replyToTransmissionId: Option<Id>,
    redHeart: Option<bool>,
    senderUpdateS3Key: string,
    receiverMsgS3Key: string)

  datatype Topic = Topic(id: Id, sender: Triple, senderUpdateS3Key: string)

  datatype Subtopic = Subtopic(id: Id, sender: Triple, senderUpdateS3Key: string, topicId: Id)

  /** Who answered whom within a topic. */
  datatype Allogrooming = Allogrooming(
    id: Id,
    topicId: Id,
    sender: Triple,
    receiverChatId: int,
    receiverBotId: int,
    senderUpdateS3Key: string)

  /** All four tables and the id supplier. */
  datatype Db = Db(
    transmissions: seq<Transmission>,
    topics: seq<Topic>,
    subtopics: seq<Subtopic>,
    allogroomings: seq<Allogrooming>,
    nextId: nat)

  /** Every id in use is below the supplier's next value, and no two transmissions share an id. */
  ghost predicate Valid(db: Db) {
    (forall k :: 0 <= k < |db.transmissions| ==> db.transmissions[k].id < db.nextId) &&
    (forall k :: 0 <= k < |db.topics| ==> db.topics[k].id < db.nextId) &&
    (forall k :: 0 <= k < |db.subtopics| ==> db.subtopics[k].id < db.nextId) &&
    (forall k :: 0 <= k < |db.allogroomings| ==> db.allogroomings[k].id < db.nextId) &&
    Unique(db.transmissions)
  }

  /** What a handler reads from the update it runs in, plus the relay's notification setting. */
  datatype Scope = Scope(
    updateS3KeyPrefix: string,
    telegramUpdateS3Key: string,
    swiperUsername: Option<string>,
    blackHeartsAreSilent: bool)

  // ---------------------------------------------------------------- lookups

  /** The rows the `byReceiverMsgId` query with the bot filter returns. */
  function QueryByReceiver(rows: seq<Transmission>, receiver: Triple): (items: seq<Transmission>)
    ensures |items| <= |rows|
    ensures forall t :: t in items <==> t in rows && t.receiver == receiver
    decreases |rows|
  {
    if rows == [] then []
    else (if rows[0].receiver == receiver then [rows[0]] else []) + QueryByReceiver(rows[1..], receiver)
  }

  lemma {:induction false} QueryByReceiverHead(rows: seq<Transmission>, receiver: Triple)
    requires QueryByReceiver(rows, receiver) != []
    ensures exists k :: (0 <= k < |rows| && rows[k] == QueryByReceiver(rows, receiver)[0] &&
      forall j :: 0 <= j < k ==> rows[j].receiver != receiver)
    decreases |rows|
  {
    if rows[0].receiver != receiver {
      QueryByReceiverHead(rows[1..], receiver);
      var k :| 0 <= k < |rows[1..]| && rows[1..][k] == QueryByReceiver(rows[1..], receiver)[0] &&
        forall j :: 0 <= j < k ==> rows[1..][j].receiver != receiver;
      assert rows[k + 1] == QueryByReceiver(rows, receiver)[0];
      forall j | 0 <= j < k + 1 ensures rows[j].receiver != receiver {
        if j > 0 { assert rows[j] == rows[1..][j - 1]; }
      }
    }
  }

  /**
   * `find_original_transmission(receiver_msg_id, receiver_chat_id, receiver_bot_id)`: the first
   * row whose receiver copy is that message, or `None`. Several matches only log a warning.
   */
  function FindOriginalTransmission(rows: seq<Transmission>, receiver: Triple): (r: Option<Transmission>)
    ensures r.None? <==> forall k :: 0 <= k < |rows| ==> rows[k].receiver != receiver
    ensures r.Some? ==> r.value.receiver == receiver && exists k :: (0 <= k < |rows| && rows[k] == r.value &&
      forall j :: 0 <= j < k ==> rows[j].receiver != receiver)
  {
    var items := QueryByReceiver(rows, receiver);
    if items == [] then
      assert forall k :: 0 <= k < |rows| ==> rows[k] !in items;
      None
    else
      QueryByReceiverHead(rows, receiver);
      assert items[0] in items;
      Some(items[0])
  }

  /**
   * `find_transmissions_by_sender_msg(sender_msg_id, sender_chat_id, sender_bot_id)`: every row
   * whose sender message is that message, in table order; possibly none, never `None`.
   */
  function FindTransmissionsBySenderMsg(rows: seq<Transmission>, sender: Triple): (items: seq<Transmission>)
    ensures |items| <= |rows|
    ensures forall t :: t in items <==> t in rows && t.sender == sender
    decreases |rows|
  {
    if rows == [] then []
    else (if rows[0].sender == sender then [rows[0]] else []) + FindTransmissionsBySenderMsg(rows[1..], sender)
  }

  /** Querying a table by receiver copy is a filter: it distributes over concatenation. */
  lemma {:induction false} QueryByReceiverAppend(rows: seq<Transmission>, more: seq<Transmission>, receiver: Triple)
    ensures QueryByReceiver(rows + more, receiver) == QueryByReceiver(rows, receiver) + QueryByReceiver(more, receiver)
    decreases |rows|
  {
    if rows != [] {
      assert (rows + more)[1..] == rows[1..] + more;
      QueryByReceiverAppend(rows[1..], more, receiver);
    } else {
      assert rows + more == more;
    }
  }

  /** A one-row table answers the receiver query with that row exactly when it matches. */
  lemma QueryByReceiverOne(t: Transmission, receiver: Triple)
    ensures QueryByReceiver([t], receiver) == if t.receiver == receiver then [t] else []
  {
    assert [t][1..] == [];
  }

  /** The sender query is a filter too: it distributes over concatenation. */
  lemma {:induction false} FindTransmissionsBySenderMsgAppend(rows: seq<Transmission>, more: seq<Transmission>, sender: Triple)
    ensures FindTransmissionsBySenderMsg(rows + more, sender) == FindTransmissionsBySenderMsg(rows, sender) + FindTransmissionsBySenderMsg(more, sender)
    decreases |rows|
  {
    if rows != [] {
      assert (rows + more)[1..] == rows[1..] + more;
      FindTransmissionsBySenderMsgAppend(rows[1..], more, sender);
    } else {
      assert rows + more == more;
    }
  }

  /** A one-row table answers the sender query with that row exactly when it matches. */
  lemma FindTransmissionsBySenderMsgOne(t: Transmission, sender: Triple)
    ensures FindTransmissionsBySenderMsg([t], sender) == if t.sender == sender then [t] else []
  {
    assert [t][1..] == [];
  }

  /** The five fields an allogrooming is looked up by. */
  predicate AllogroomingMatches(a: Allogrooming, senderChatId: int, senderBotId: int, receiverChatId: int, receiverBotId: int, topicId: Id) {
    a.topicId == topicId && a.sender.chatId == senderChatId && a.sender.botId == senderBotId &&
    a.receiverChatId == receiverChatId && a.receiverBotId == receiverBotId
  }

  /** The `byTopicAndSender` query with the bot and receiver filters. */
  function QueryAllogroomings(rows: seq<Allogrooming>, senderChatId: int, senderBotId: int, receiverChatId: int, receiverBotId: int, topicId: Id): (items: seq<Allogrooming>)
    ensures forall a :: a in items <==> a in rows && AllogroomingMatches(a, senderChatId, senderBotId, receiverChatId, receiverBotId, topicId)
    decreases |rows|
  {
    if rows == [] then []
    else
      (if AllogroomingMatches(rows[0], senderChatId, senderBotId, receiverChatId, receiverBotId, topicId) then [rows[0]] else []) +
      QueryAllogroomings(rows[1..], senderChatId, senderBotId, receiverChatId, receiverBotId, topicId)
  }

  lemma {:induction false} QueryAllogroomingsHead(rows: seq<Allogrooming>, senderChatId: int, senderBotId: int, receiverChatId: int, receiverBotId: int, topicId: Id)
    requires QueryAllogroomings(rows, senderChatId, senderBotId, receiverChatId, receiverBotId, topicId) != []
    ensures exists k :: (0 <= k < |rows| && rows[k] == QueryAllogroomings(rows, senderChatId, senderBotId, receiverChatId, receiverBotId, topicId)[0] &&
      forall j :: 0 <= j < k ==> !AllogroomingMatches(rows[j], senderChatId, senderBotId, receiverChatId, receiverBotId, topicId))
    decreases |rows|
  {
    if !AllogroomingMatches(rows[0], senderChatId, senderBotId, receiverChatId, receiverBotId, topicId) {
      var rest := rows[1..];
      QueryAllogroomingsHead(rest, senderChatId, senderBotId, receiverChatId, receiverBotId, topicId);
      var k :| 0 <= k < |rest| && rest[k] == QueryAllogroomings(rest, senderChatId, senderBotId, receiverChatId, receiverBotId, topicId)[0] &&
        forall j :: 0 <= j < k ==> !AllogroomingMatches(rest[j], senderChatId, senderBotId, receiverChatId, receiverBotId, topicId);
      assert rows[k + 1] == rest[k];
      forall j | 0 <= j < k + 1 ensures !AllogroomingMatches(rows[j], senderChatId, senderBotId, receiverChatId, receiverBotId, topicId) {
        if j > 0 { assert rows[j] == rest[j - 1]; }
      }
    }
  }

  /** `find_allogrooming`: the first allogrooming matching all five fields, or `None`. */
  function FindAllogrooming(rows: seq<Allogrooming>, senderChatId: int, senderBotId: int, receiverChatId: int, receiverBotId: int, topicId: Id): (r: Option<Allogrooming>)
    ensures r.None? <==> forall k :: 0 <= k < |rows| ==> !AllogroomingMatches(rows[k], senderChatId, senderBotId, receiverChatId, receiverBotId, topicId)
    ensures r.Some? ==> (AllogroomingMatches(r.value, senderChatId, senderBotId, receiverChatId, receiverBotId, topicId) &&
      exists k :: (0 <= k < |rows| && rows[k] == r.value &&
        forall j :: 0 <= j < k ==> !AllogroomingMatches(rows[j], senderChatId, senderBotId, receiverChatId, receiverBotId, topicId)))
  {
    var items := QueryAllogroomings(rows, senderChatId, senderBotId, receiverChatId, receiverBotId, topicId);
    if items == [] then
      assert forall k :: 0 <= k < |rows| ==> rows[k] !in items;
      None
    else
      QueryAllogroomingsHead(rows, senderChatId, senderBotId, receiverChatId, receiverBotId, topicId);
      assert items[0] in items;
      Some(items[0])
  }

  // ---------------------------------------------------------------- table writes on values

  /** The table after `delete_item(Key={id: id})`: every row with that id is gone. */
  function Without(rows: seq<Transmission>, id: Id): (r: seq<Transmission>)
    ensures |r| <= |rows|
    ensures forall t :: t in r <==> t in rows && t.id != id
    decreases |rows|
  {
    if rows == [] then []
    else
      var init := Without(rows[..|rows| - 1], id);
      var last := rows[|rows| - 1];
      assert rows == rows[..|rows| - 1] + [last];
      if last.id == id then init else init + [last]
  }

  lemma {:induction false} WithoutAppend(rows: seq<Transmission>, t: Transmission, id: Id)
    requires t.id != id
    ensures Without(rows + [t], id) == Without(rows, id) + [t]
  {
    assert (rows + [t])[..|rows + [t]| - 1] == rows;
  }

  /** When no row has the id, deleting it changes nothing. */
  lemma {:induction false} WithoutAbsent(rows: seq<Transmission>, id: Id)
    requires forall k :: 0 <= k < |rows| ==> rows[k].id != id
    ensures Without(rows, id) == rows
    decreases |rows|
  {
    if rows != [] {
      WithoutAbsent(rows[..|rows| - 1], id);
      assert rows[..|rows| - 1] + [rows[|rows| - 1]] == rows;
    }
  }

  /** `create_topic`'s row written into the tables: one topic under the next id. */
  function AddTopic(db: Db, sender: Triple, key: string): (r: (Db, Id))
    ensures r.1 == db.nextId && r.0.nextId == db.nextId + 1
    ensures r.0.topics == db.topics + [Topic(r.1, sender, key)]
    ensures r.0.transmissions == db.transmissions && r.0.subtopics == db.subtopics && r.0.allogroomings == db.allogroomings
    ensures Valid(db) ==> Valid(r.0) && forall k :: 0 <= k < |db.topics| ==> db.topics[k].id != r.1
  {
    (db.(topics := db.topics + [Topic(db.nextId, sender, key)], nextId := db.nextId + 1), db.nextId)
  }

  /** `create_allogrooming`'s row written into the tables: one allogrooming under the next id. */
  function AddAllogrooming(db: Db, sender: Triple, receiverChatId: int, receiverBotId: int, topicId: Id, key: string): (r: (Db, Id))
    ensures r.1 == db.nextId && r.0.nextId == db.nextId + 1
    ensures r.0.allogroomings == db.allogroomings + [Allogrooming(r.1, topicId, sender, receiverChatId, receiverBotId, key)]
    ensures r.0.transmissions == db.transmissions && r.0.topics == db.topics && r.0.subtopics == db.subtopics
    ensures Valid(db) ==> Valid(r.0) && forall k :: 0 <= k < |db.allogroomings| ==> db.allogroomings[k].id != r.1
  {
    (db.(allogroomings := db.allogroomings + [Allogrooming(db.nextId, topicId, sender, receiverChatId, receiverBotId, key)], nextId := db.nextId + 1), db.nextId)
  }

  /** The S3 key a relayed copy is archived under: `<prefix>.transmission.<id>.json`. */
  function ReceiverMsgS3Key(prefix: string, id: Id): string {
    prefix + ".transmission." + IntToString(id) + ".json"
  }

  /** Distinct transmissions of one update are archived under distinct keys. */
  lemma ReceiverMsgS3KeyInjective(prefix: string, a: Id, b: Id)
    ensures ReceiverMsgS3Key(prefix, a) == ReceiverMsgS3Key(prefix, b) <==> a == b
  {
    if ReceiverMsgS3Key(prefix, a) == ReceiverMsgS3Key(prefix, b) {
      var p := prefix + ".transmission.";
      var sa, sb := IntToString(a), IntToString(b);
      assert p + sa + ".json" == p + sb + ".json";
      assert |sa| == |sb|;
      assert sa == (p + sa + ".json")[|p|..|p| + |sa|];
      assert sb == (p + sb + ".json")[|p|..|p| + |sb|];
      IntToStringInjective(a, b);
    }
  }

  // ---------------------------------------------------------------- content selection

  /** The content kinds `_ptb_transmit` knows, in the order it tests them. */
  datatype Kind = TextKind | StickerKind | PhotoKind | AnimationKind | VideoKind | AudioKind
    | VideoNoteKind | VoiceKind | LocationKind | ContactKind | DocumentKind | PollKind

  const DispatchOrder: seq<Kind> := [TextKind, StickerKind, PhotoKind, AnimationKind, VideoKind, AudioKind,
    VideoNoteKind, VoiceKind, LocationKind, ContactKind, DocumentKind, PollKind]

  /** Whether the message carries that kind (Python truthiness of the field). */
  predicate Has(m: Message, k: Kind) {
    match k
    case TextKind => Truthy(m.text)
    case StickerKind => m.sticker.Some?
    case PhotoKind => |m.photo| > 0
    case AnimationKind => m.animation.Some?
    case VideoKind => m.video.Some?
    case AudioKind => m.audio.Some?
    case VideoNoteKind => m.videoNote.Some?
    case VoiceKind => m.voice.Some?
    case LocationKind => m.location.Some?
    case ContactKind => m.contact.Some?
    case DocumentKind => m.document.Some?
    case PollKind => m.poll.Some?
  }

  /** The `if`/`elif` chain of `_ptb_transmit`: the kind of the branch taken, or `None`. */
  function FirstKind(m: Message): Option<Kind> {
    if Has(m, TextKind) then Some(TextKind)
    else if Has(m, StickerKind) then Some(StickerKind)
    else if Has(m, PhotoKind) then Some(PhotoKind)
    else if Has(m, AnimationKind) then Some(AnimationKind)
    else if Has(m, VideoKind) then Some(VideoKind)
    else if Has(m, AudioKind) then Some(AudioKind)
    else if Has(m, VideoNoteKind) then Some(VideoNoteKind)
    else if Has(m, VoiceKind) then Some(VoiceKind)
    else if Has(m, LocationKind) then Some(LocationKind)
    else if Has(m, ContactKind) then Some(ContactKind)
    else if Has(m, DocumentKind) then Some(DocumentKind)
    else if Has(m, PollKind) then Some(PollKind)
    else None
  }

  /** The first kind of `order` at position `i` or later that the message has, scanning the list. */
  function FirstFrom(order: seq<Kind>, i: nat, m: Message): Option<Kind>
    decreases |order| - i
  {
    if i >= |order| then None
    else if Has(m, order[i]) then Some(order[i])
    else FirstFrom(order, i + 1, m)
  }

  lemma {:induction false} FirstFromSpec(order: seq<Kind>, i: nat, m: Message)
    ensures FirstFrom(order, i, m).None? <==> forall k :: i <= k < |order| ==> !Has(m, order[k])
    ensures FirstFrom(order, i, m).Some? ==> exists k :: (i <= k < |order| && order[k] == FirstFrom(order, i, m).value &&
      Has(m, order[k]) && forall j :: i <= j < k ==> !Has(m, order[j]))
    decreases |order| - i
  {
    if i >= |order| {
    } else if Has(m, order[i]) {
      assert FirstFrom(order, i, m) == Some(order[i]);
    } else {
      FirstFromSpec(order, i + 1, m);
      assert FirstFrom(order, i, m) == FirstFrom(order, i + 1, m);
      if FirstFrom(order, i + 1, m).Some? {
        var k :| i + 1 <= k < |order| && order[k] == FirstFrom(order, i + 1, m).value &&
          Has(m, order[k]) && forall j :: i + 1 <= j < k ==> !Has(m, order[j]);
        assert forall j :: i <= j < k ==> !Has(m, order[j]);
      }
    }
  }

  /** The `if`/`elif` chain is the scan of `DispatchOrder`. */
  lemma FirstKindScansOrder(m: Message)
    ensures FirstKind(m) == FirstFrom(DispatchOrder, 0, m)
  {
    var o := DispatchOrder;
    assert FirstFrom(o, 12, m) == None;
    assert FirstFrom(o, 11, m) == if Has(m, PollKind) then Some(PollKind) else None;
    assert FirstFrom(o, 10, m) == if Has(m, DocumentKind) then Some(DocumentKind) else FirstFrom(o, 11, m);
    assert FirstFrom(o, 9, m) == if Has(m, ContactKind) then Some(ContactKind) else FirstFrom(o, 10, m);
    assert FirstFrom(o, 8, m) == if Has(m, LocationKind) then Some(LocationKind) else FirstFrom(o, 9, m);
    assert FirstFrom(o, 7, m) == if Has(m, VoiceKind) then Some(VoiceKind) else FirstFrom(o, 8, m);
    assert FirstFrom(o, 6, m) == if Has(m, VideoNoteKind) then Some(VideoNoteKind) else FirstFrom(o, 7, m);
    assert FirstFrom(o, 5, m) == if Has(m, AudioKind) then Some(AudioKind) else FirstFrom(o, 6, m);
    assert FirstFrom(o, 4, m) == if Has(m, VideoKind) then Some(VideoKind) else FirstFrom(o, 5, m);
    assert FirstFrom(o, 3, m) == if Has(m, AnimationKind) then Some(AnimationKind) else FirstFrom(o, 4, m);
    assert FirstFrom(o, 2, m) == if Has(m, PhotoKind) then Some(PhotoKind) else FirstFrom(o, 3, m);
    assert FirstFrom(o, 1, m) == if Has(m, StickerKind) then Some(StickerKind) else FirstFrom(o, 2, m);
    assert FirstFrom(o, 0, m) == if Has(m, TextKind) then Some(TextKind) else FirstFrom(o, 1, m);
  }

  /**
   * The dispatch sends the first present kind in the order text, sticker, photo, animation,
   * video, audio, video note, voice, location, contact, document, poll, and nothing when the
   * message has none of them.
   */
  lemma DispatchFollowsOrder(m: Message)
    ensures FirstKind(m).None? <==> forall i :: 0 <= i < |DispatchOrder| ==> !Has(m, DispatchOrder[i])
    ensures FirstKind(m).Some? ==> exists i :: (0 <= i < |DispatchOrder| && DispatchOrder[i] == FirstKind(m).value &&
      Has(m, DispatchOrder[i]) && forall j :: 0 <= j < i ==> !Has(m, DispatchOrder[j]))
  {
    FirstKindScansOrder(m);
    FirstFromSpec(DispatchOrder, 0, m);
  }

  /** `max(msg.photo, key=file_size)`: the largest size, the first one among equals. */
  function BiggestPhoto(photos: seq<PhotoSize>): (p: PhotoSize)
    requires |photos| > 0
    ensures p in photos
    ensures forall q :: q in photos ==> q.fileSize <= p.fileSize
    decreases |photos|
  {
    if |photos| == 1 then photos[0]
    else
      var init := photos[..|photos| - 1];
      var best := BiggestPhoto(init);
      var last := photos[|photos| - 1];
      assert photos == init + [last];
      if last.fileSize > best.fileSize then last else best
  }

  /** Of several sizes with the largest file size, `max` keeps the first. */
  lemma {:induction false} BiggestPhotoIsFirst(photos: seq<PhotoSize>)
    requires |photos| > 0
    ensures exists k :: 0 <= k < |photos| && photos[k] == BiggestPhoto(photos) &&
                        forall j :: 0 <= j < k ==> photos[j].fileSize < BiggestPhoto(photos).fileSize
    decreases |photos|
  {
    if |photos| == 1 {
      assert photos[0] == BiggestPhoto(photos);
    } else {
      var init := photos[..|photos| - 1];
      var best := BiggestPhoto(init);
      var last := photos[|photos| - 1];
      BiggestPhotoIsFirst(init);
      if last.fileSize > best.fileSize {
        assert BiggestPhoto(photos) == last;
        forall j | 0 <= j < |photos| - 1
          ensures photos[j].fileSize < last.fileSize
        {
          assert photos[j] == init[j] && init[j] in init;
        }
        assert photos[|photos| - 1] == last;
      } else {
        assert BiggestPhoto(photos) == best;
        var k :| 0 <= k < |init| && init[k] == best && forall j :: 0 <= j < k ==> init[j].fileSize < best.fileSize;
        assert photos[k] == best;
        assert forall j :: 0 <= j < k ==> photos[j] == init[j];
      }
    }
  }

  /** `transmission_kbd_markup(red_heart, show_share)`. */
  function TransmissionKbdMarkup(redHeart: bool, showShare: bool): (m: Markup)
    ensures m.InlineKeyboard? && |m.rows| == 1
    ensures |m.rows[0]| == (if showShare then 2 else 1)
    ensures m.rows[0][0] == Button(HeartReply(if redHeart then RedHeart else BlackHeart), ReplyData)
    ensures showShare ==> m.rows[0][1] == Button(ShareLabel, ShareData)
  {
    var heart := if redHeart then RedHeart else BlackHeart;
    var row := [Button(HeartReply(heart), ReplyData)];
    InlineKeyboard([if showShare then row + [Button(ShareLabel, ShareData)] else row])
  }

  /** `_append_username_or_dont`: the username is appended only when it is truthy. */
  function WithUsername(text: Option<string>, entities: Option<seq<Entity>>, usernameToAppend: Option<string>): (c: Caption)
    ensures Truthy(usernameToAppend) ==> c.text == Some(text.GetOr("") + Delimiter + usernameToAppend.value)
    ensures !Truthy(usernameToAppend) ==> c == Caption(text, entities)
  {
    if Truthy(usernameToAppend) then
      var (t, es) := AppendSwiperUsername(text, entities, usernameToAppend.value);
      Caption(Some(t), Some(es))
    else Caption(text, entities)
  }

  /** What a sent copy of the message carries; a poll is forwarded instead, so it has none. */
  function ContentOf(m: Message, usernameToAppend: Option<string>): (r: Option<Content>)
    ensures r.Some? <==> FirstKind(m).Some? && FirstKind(m) != Some(PollKind)
  {
    var cap := WithUsername(m.caption, m.captionEntities, usernameToAppend);
    match FirstKind(m)
    case None => None
    case Some(k) =>
      match k
      case TextKind => Some(TextContent(WithUsername(m.text, m.entities, usernameToAppend)))
      case StickerKind => Some(StickerContent(m.sticker.value))
      case PhotoKind => Some(PhotoContent(BiggestPhoto(m.photo), cap))
      case AnimationKind => Some(AnimationContent(m.animation.value, cap))
      case VideoKind => Some(VideoContent(m.video.value, cap))
      case AudioKind => Some(AudioContent(m.audio.value, cap))
      case VideoNoteKind => Some(VideoNoteContent(m.videoNote.value))
      case VoiceKind => Some(VoiceContent(m.voice.value, cap))
      case LocationKind => Some(LocationContent(m.location.value))
      case ContactKind => Some(ContactContent(m.contact.value))
      case DocumentKind => Some(DocumentContent(m.document.value, cap))
      case PollKind => None
  }

  /** The one Bot API call `_ptb_transmit` makes for the message, or `None` when it makes none. */
  function PtbAction(m: Message, receiverChatId: int, usernameToAppend: Option<string>, options: SendOptions, blackHeartsAreSilent: bool): (r: Option<Action>)
    ensures r.None? <==> FirstKind(m).None?
    ensures FirstKind(m) == Some(PollKind) ==> r == Some(ForwardPoll(receiverChatId, m.chatId, m.messageId, blackHeartsAreSilent))
    ensures r.Some? && FirstKind(m) != Some(PollKind) ==> r.value.Send? && r.value.chatId == receiverChatId && r.value.options == options
  {
    match FirstKind(m)
    case None => None
    case Some(PollKind) => Some(ForwardPoll(receiverChatId, m.chatId, m.messageId, blackHeartsAreSilent))
    case Some(_) => Some(Send(receiverChatId, ContentOf(m, usernameToAppend).value, options))
  }

  /** A relayed text carries the username after the delimiter, and its entity covers exactly that username. */
  lemma RelayedTextIsSigned(m: Message, receiverChatId: int, username: string, options: SendOptions, silent: bool)
    requires Truthy(m.text) && username != ""
    ensures var a := PtbAction(m, receiverChatId, Some(username), options, silent).value;
      a.Send? && a.content.TextContent? && a.content.body.text == Some(m.text.value + Delimiter + username) &&
      a.content.body.entities == Some(AppendSwiperUsername(m.text, m.entities, username).1)
  {
  }

  // ---------------------------------------------------------------- transmit_message on values

  /** The keyword arguments of one `transmit_message` call besides the message and the bots. */
  datatype Req = Req(
    receiverChatId: int,
    redHeart: bool,
    topicId: Option<Id>,
    disableNotification: bool,
    subtopicId: Option<Id>,
    allogroomingId: Option<Id>,
    replyToMsgId: Option<int>,
    replyToTransmissionId: Option<Id>)

  /** Tables, platform and the truthiness of what a primitive returned. */
  datatype Outcome = Outcome(db: Db, bot: BotState, ok: bool)

  /** The send options `transmit_message` uses: reply keyboard, share button on red hearts. */
  function TransmitOptions(req: Req): SendOptions {
    SendOptions(req.replyToMsgId, TransmissionKbdMarkup(req.redHeart, req.redHeart), req.disableNotification, false)
  }

  /** The delivering call `transmit_message` makes for the request, if any. */
  function TransmitAction(scope: Scope, m: Message, req: Req): Option<Action> {
    PtbAction(m, req.receiverChatId, scope.swiperUsername, TransmitOptions(req), scope.blackHeartsAreSilent)
  }

  /** The row `transmit_message` writes for a copy delivered as message `receiverMsgId`. */
  function TransmissionRow(scope: Scope, m: Message, senderBotId: int, receiverBotId: int, req: Req, id: Id, receiverMsgId: int): Transmission {
    Transmission(id, req.topicId, req.subtopicId, req.allogroomingId, None,
      Triple(m.messageId, m.chatId, senderBotId), Triple(receiverMsgId, req.receiverChatId, receiverBotId),
      req.replyToMsgId, req.replyToTransmissionId, Some(req.redHeart),
      scope.telegramUpdateS3Key, ReceiverMsgS3Key(scope.updateS3KeyPrefix, id))
  }

  /**
   * `transmit_message` (wrapped by `fail_safely`) on values: deliver the copy; if the platform
   * gave no message, write nothing and report false; otherwise write one row under a fresh id,
   * hide the keyboard of the message replied to, and report true.
   */
  function Transmit(db: Db, bot: BotState, scope: Scope, m: Message, senderBotId: int, receiverBotId: int, req: Req): (r: Outcome)
    ensures r.ok <==> TransmitAction(scope, m, req).Some? && Next(bot.script).Some?
    ensures !r.ok ==> r.db == db
    ensures r.ok ==> r.db == db.(transmissions := db.transmissions + [TransmissionRow(scope, m, senderBotId, receiverBotId, req, db.nextId, Next(bot.script).value)], nextId := db.nextId + 1)
    ensures r.bot.script == (if TransmitAction(scope, m, req).Some? then Rest(bot.script) else bot.script)
    ensures r.bot.log == bot.log + (if TransmitAction(scope, m, req).Some? then [TransmitAction(scope, m, req).value] else []) +
      (if r.ok && req.replyToMsgId.Some? then [ClearKeyboard(req.receiverChatId, req.replyToMsgId.value)] else [])
  {
    match TransmitAction(scope, m, req)
    case None => Outcome(db, bot, false)
    case Some(a) =>
      var (bot1, delivered) := Deliver(bot, a);
      match delivered
      case None => Outcome(db, bot1, false)
      case Some(receiverMsgId) =>
        var row := TransmissionRow(scope, m, senderBotId, receiverBotId, req, db.nextId, receiverMsgId);
        var db1 := db.(transmissions := db.transmissions + [row], nextId := db.nextId + 1);
        var bot2 := if req.replyToMsgId.Some? then Perform(bot1, ClearKeyboard(req.receiverChatId, req.replyToMsgId.value)) else bot1;
        Outcome(db1, bot2, true)
  }

  /**
   * A delivered copy is one new row carrying the sender triple of the message, the receiver
   * triple of the delivered copy, the request's topic, allogrooming and reply ids and its heart,
   * under an id no row had; the other tables are untouched and the store stays valid.
   */
  lemma TransmitWritesOneRow(db: Db, bot: BotState, scope: Scope, m: Message, senderBotId: int, receiverBotId: int, req: Req)
    requires Valid(db)
    ensures var r := Transmit(db, bot, scope, m, senderBotId, receiverBotId, req);
      Valid(r.db) && r.db.topics == db.topics && r.db.subtopics == db.subtopics && r.db.allogroomings == db.allogroomings &&
      |r.db.transmissions| == |db.transmissions| + (if r.ok then 1 else 0) &&
      r.db.transmissions[..|db.transmissions|] == db.transmissions &&
      (r.ok ==> var t := r.db.transmissions[|db.transmissions|];
        (forall k :: 0 <= k < |db.transmissions| ==> db.transmissions[k].id != t.id) &&
        t.sender == Triple(m.messageId, m.chatId, senderBotId) &&
        t.receiver == Triple(Next(bot.script).value, req.receiverChatId, receiverBotId) &&
        t.topicId == req.topicId && t.allogroomingId == req.allogroomingId && t.subtopicId == req.subtopicId &&
        t.replyToMsgId == req.replyToMsgId && t.replyToTransmissionId == req.replyToTransmissionId &&
        t.redHeart == Some(req.redHeart) && t.originalMsgTransId.None? &&
        t.receiverMsgS3Key == ReceiverMsgS3Key(scope.updateS3KeyPrefix, t.id))
  {
    var r := Transmit(db, bot, scope, m, senderBotId, receiverBotId, req);
    if r.ok {
      assert r.db.transmissions[..|db.transmissions|] == db.transmissions;
    } else {
      assert db.transmissions[..|db.transmissions|] == db.transmissions;
    }
  }

  /** The chat a relaying call delivers to. */
  function Recipient(a: Action): Option<int> {
    match a
    case Send(chatId, _, _) => Some(chatId)
    case ForwardPoll(chatId, _, _, _) => Some(chatId)
    case _ => None
  }

  /**
   * One `transmit_message` as the fan-outs see it: a relaying call to the request's chat when
   * there is content, one answer taken for it, true iff that answer is a message, and the log
   * only extended.
   */
  lemma TransmitCalls(db: Db, bot: BotState, scope: Scope, m: Message, senderBotId: int, receiverBotId: int, req: Req)
    ensures var r := Transmit(db, bot, scope, m, senderBotId, receiverBotId, req);
      var a := TransmitAction(scope, m, req);
      (a.Some? <==> FirstKind(m).Some?) &&
      (a.Some? ==> Recipient(a.value) == Some(req.receiverChatId)) &&
      r.bot.script == (if a.Some? then Rest(bot.script) else bot.script) &&
      (r.ok <==> a.Some? && Next(bot.script).Some?) &&
      Deliveries(r.bot.log) == Deliveries(bot.log) + (if a.Some? then [a.value] else []) &&
      |bot.log| <= |r.bot.log| && r.bot.log[..|bot.log|] == bot.log
  {
    var r := Transmit(db, bot, scope, m, senderBotId, receiverBotId, req);
    var a := TransmitAction(scope, m, req);
    if a.Some? {
      var clear := ClearKeyboard(req.receiverChatId, req.replyToMsgId.GetOr(0));
      DeliveriesSnoc(bot.log, a.value);
      DeliveriesSnoc(bot.log + [a.value], clear);
      if r.ok && req.replyToMsgId.Some? {
        assert r.bot.log == bot.log + [a.value] + [clear];
      } else {
        assert r.bot.log == bot.log + [a.value];
      }
    }
    assert r.bot.log[..|bot.log|] == bot.log;
  }

  // ---------------------------------------------------------------- force_reply on values

  /**
   * The prompt `force_reply` sends back to the tapping user: a force-reply copy of the tapped
   * message; a tapped poll is forwarded, silently when black hearts are silent.
   */
  function ForceReplyAction(m: Message, blackHeartsAreSilent: bool): Option<Action> {
    PtbAction(m, m.chatId, None, SendOptions(m.replyTo, ForceReplyMarkup, true, true), blackHeartsAreSilent)
  }

  /** The copy `force_reply` puts: new id, the old id as its origin, the prompt as its receiver copy. */
  function Reparented(row: Transmission, newId: Id, prompt: Triple): Transmission {
    row.(originalMsgTransId := Some(row.id), id := newId, receiver := prompt)
  }

  /**
   * `force_reply(original_msg, original_msg_transmission)` on values. When the prompt is not
   * produced, reading its id raises: nothing is written and `ok` is false. Otherwise the copy is
   * put and then every row with the old id is deleted.
   */
  function ForceReplySpec(db: Db, bot: BotState, m: Message, row: Transmission, blackHeartsAreSilent: bool): (r: Outcome)
    ensures !r.ok ==> r.db == db
    ensures r.ok <==> ForceReplyAction(m, blackHeartsAreSilent).Some? && Next(bot.script).Some?
    ensures r.ok ==> r.db == db.(transmissions := Without(db.transmissions + [Reparented(row, db.nextId, Triple(Next(bot.script).value, m.chatId, m.botId))], row.id), nextId := db.nextId + 1)
    ensures r.bot.log == bot.log + (if ForceReplyAction(m, blackHeartsAreSilent).Some? then [ForceReplyAction(m, blackHeartsAreSilent).value] else [])
  {
    match ForceReplyAction(m, blackHeartsAreSilent)
    case None => Outcome(db, bot, false)
    case Some(a) =>
      var (bot1, delivered) := Deliver(bot, a);
      match delivered
      case None => Outcome(db, bot1, false)
      case Some(promptId) =>
        var copy := Reparented(row, db.nextId, Triple(promptId, m.chatId, m.botId));
        Outcome(db.(transmissions := Without(db.transmissions + [copy], row.id), nextId := db.nextId + 1), bot1, true)
  }

  /**
   * Re-parenting replaces the tapped row by its copy: the other rows stay in order, the copy
   * keeps every field but its id (fresh), its origin (the old id) and its receiver copy (the
   * prompt), and the store stays valid.
   */
  lemma ReparentReplacesRow(db: Db, bot: BotState, m: Message, row: Transmission, blackHeartsAreSilent: bool)
    requires Valid(db) && row in db.transmissions
    ensures var r := ForceReplySpec(db, bot, m, row, blackHeartsAreSilent);
      Valid(r.db) && r.db.topics == db.topics && r.db.allogroomings == db.allogroomings && r.db.subtopics == db.subtopics &&
      (r.ok ==> var copy := r.db.transmissions[|r.db.transmissions| - 1];
        r.db.transmissions == Without(db.transmissions, row.id) + [copy] &&
        |r.db.transmissions| == |db.transmissions| &&
        (forall k :: 0 <= k < |db.transmissions| ==> db.transmissions[k].id != copy.id) &&
        copy.originalMsgTransId == Some(row.id) &&
        copy.receiver == Triple(Next(bot.script).value, m.chatId, m.botId) &&
        copy.sender == row.sender && copy.topicId == row.topicId && copy.allogroomingId == row.allogroomingId &&
        copy.subtopicId == row.subtopicId && copy.redHeart == row.redHeart && copy.replyToMsgId == row.replyToMsgId &&
        copy.replyToTransmissionId == row.replyToTransmissionId && copy.receiverMsgS3Key == row.receiverMsgS3Key)
  {
    var r := ForceReplySpec(db, bot, m, row, blackHeartsAreSilent);
    if r.ok {
      var copy := Reparented(row, db.nextId, Triple(Next(bot.script).value, m.chatId, m.botId));
      var rows := db.transmissions;
      var others := Without(rows, row.id);
      WithoutAppend(rows, copy, row.id);
      assert r.db.transmissions == others + [copy];
      UniqueIdWithoutRemovesOne(rows, row);
      WithoutKeepsUnique(rows, row.id);
      forall i, j | 0 <= i < j < |r.db.transmissions| ensures r.db.transmissions[i].id != r.db.transmissions[j].id {
        if j == |others| {
          assert r.db.transmissions[i] in others;
        }
      }
      forall k | 0 <= k < |r.db.transmissions| ensures r.db.transmissions[k].id < r.db.nextId {
        if k < |others| { assert r.db.transmissions[k] in others; }
      }
    }
  }

  /** No two rows share an id. */
  ghost predicate Unique(rows: seq<Transmission>) {
    forall i, j :: 0 <= i < j < |rows| ==> rows[i].id != rows[j].id
  }

  /** Filtering an id-unique table keeps it id-unique. */
  lemma {:induction false} WithoutKeepsUnique(rows: seq<Transmission>, id: Id)
    requires Unique(rows)
    ensures Unique(Without(rows, id))
    decreases |rows|
  {
    if rows != [] {
      var init := rows[..|rows| - 1];
      assert forall i, j :: 0 <= i < j < |init| ==> init[i].id != init[j].id by {
        forall i, j | 0 <= i < j < |init| ensures init[i].id != init[j].id {
          assert init[i] == rows[i] && init[j] == rows[j];
        }
      }
      WithoutKeepsUnique(init, id);
      var w := Without(init, id);
      assert Unique(w);
      var last := rows[|rows| - 1];
      if last.id != id {
        forall i | 0 <= i < |w| ensures w[i].id != last.id {
          assert w[i] in init;
          var k :| 0 <= k < |init| && init[k] == w[i];
          assert rows[k] == init[k];
        }
        var w2 := w + [last];
        assert Without(rows, id) == w2;
        forall i, j | 0 <= i < j < |w2| ensures w2[i].id != w2[j].id {
          if j == |w| {
            assert w2[i] == w[i] && w2[j] == last;
          } else {
            assert w2[i] == w[i] && w2[j] == w[j];
            assert w[i].id != w[j].id;
          }
        }
      } else {
        assert Without(rows, id) == w;
      }
    }
  }

  /** In an id-unique table holding `row`, deleting its id removes exactly one row. */
  lemma {:induction false} UniqueIdWithoutRemovesOne(rows: seq<Transmission>, row: Transmission)
    requires Unique(rows)
    requires row in rows
    ensures |Without(rows, row.id)| == |rows| - 1
    decreases |rows|
  {
    var init := rows[..|rows| - 1];
    var last := rows[|rows| - 1];
    assert rows == init + [last];
    if last == row {
      forall k | 0 <= k < |init| ensures init[k].id != row.id {
        assert rows[k] == init[k];
      }
      WithoutAbsent(init, row.id);
    } else {
      assert row in init;
      UniqueIdWithoutRemovesOne(init, row);
      var k :| 0 <= k < |init| && init[k] == row;
      assert rows[k] == row;
      assert last.id != row.id;
    }
  }

  /**
   * After re-parenting, a reply to the prompt finds the copy, provided no row named the prompt
   * as its receiver copy before.
   */
  lemma ReparentResolves(db: Db, bot: BotState, m: Message, row: Transmission, blackHeartsAreSilent: bool)
    requires Valid(db) && row in db.transmissions
    requires ForceReplySpec(db, bot, m, row, blackHeartsAreSilent).ok
    requires forall k :: 0 <= k < |db.transmissions| ==> db.transmissions[k].receiver != Triple(Next(bot.script).value, m.chatId, m.botId)
    ensures var r := ForceReplySpec(db, bot, m, row, blackHeartsAreSilent);
      FindOriginalTransmission(r.db.transmissions, Triple(Next(bot.script).value, m.chatId, m.botId)) ==
        Some(Reparented(row, db.nextId, Triple(Next(bot.script).value, m.chatId, m.botId)))
  {
    var prompt := Triple(Next(bot.script).value, m.chatId, m.botId);
    var r := ForceReplySpec(db, bot, m, row, blackHeartsAreSilent);
    var copy := Reparented(row, db.nextId, prompt);
    var others := Without(db.transmissions, row.id);
    WithoutAppend(db.transmissions, copy, row.id);
    assert r.db.transmissions == others + [copy];
    forall k | 0 <= k < |others| ensures others[k].receiver != prompt {
      assert others[k] in others;
    }
    var found := FindOriginalTransmission(r.db.transmissions, prompt);
    assert r.db.transmissions[|others|] == copy;
    if found.Some? {
      var k :| 0 <= k < |r.db.transmissions| && r.db.transmissions[k] == found.value &&
        forall j :: 0 <= j < k ==> r.db.transmissions[j].receiver != prompt;
      assert k == |others|;
    }
  }

  /**
   * After re-parenting, the tapped message no longer resolves, provided it is not the prompt
   * and no other row named it as its receiver copy.
   */
  lemma ReparentForgetsTapped(db: Db, bot: BotState, m: Message, row: Transmission, blackHeartsAreSilent: bool)
    requires Valid(db) && row in db.transmissions
    requires forall k :: 0 <= k < |db.transmissions| && db.transmissions[k].receiver == row.receiver ==> db.transmissions[k] == row
    requires ForceReplySpec(db, bot, m, row, blackHeartsAreSilent).ok
    requires row.receiver != Triple(Next(bot.script).value, m.chatId, m.botId)
    ensures FindOriginalTransmission(ForceReplySpec(db, bot, m, row, blackHeartsAreSilent).db.transmissions, row.receiver).None?
  {
    var copy := Reparented(row, db.nextId, Triple(Next(bot.script).value, m.chatId, m.botId));
    var others := Without(db.transmissions, row.id);
    WithoutAppend(db.transmissions, copy, row.id);
    var rows := ForceReplySpec(db, bot, m, row, blackHeartsAreSilent).db.transmissions;
    assert rows == others + [copy];
    forall k | 0 <= k < |rows| ensures rows[k].receiver != row.receiver {
      if k < |others| {
        assert others[k] in others;
      }
    }
  }

  // ---------------------------------------------------------------- allogrooming find-or-create

  /**
   * The find-or-create step of `transmit_reply`: the id of the first matching allogrooming, or
   * of a new one written here; `created` says which, and is what enables the notification.
   */
  function FindOrCreateAllogrooming(db: Db, sender: Triple, receiverChatId: int, receiverBotId: int, topicId: Id, key: string): (r: (Db, Id, bool))
    ensures r.2 <==> FindAllogrooming(db.allogroomings, sender.chatId, sender.botId, receiverChatId, receiverBotId, topicId).None?
    ensures !r.2 ==> r.0 == db && r.1 == FindAllogrooming(db.allogroomings, sender.chatId, sender.botId, receiverChatId, receiverBotId, topicId).value.id
    ensures r.2 ==> (r.0, r.1) == AddAllogrooming(db, sender, receiverChatId, receiverBotId, topicId, key)
  {
    match FindAllogrooming(db.allogroomings, sender.chatId, sender.botId, receiverChatId, receiverBotId, topicId)
    case Some(a) => (db, a.id, false)
    case None =>
      var (db1, id) := AddAllogrooming(db, sender, receiverChatId, receiverBotId, topicId, key);
      (db1, id, true)
  }

  /**
   * Find-or-create does not duplicate: a second reply within the same topic, between the same
   * two chats and bots, finds the allogrooming the first one created and creates nothing.
   */
  lemma {:induction false} AllogroomingNotDuplicated(db: Db, sender: Triple, sender2: Triple, receiverChatId: int, receiverBotId: int, topicId: Id, key: string, key2: string)
    requires sender2.chatId == sender.chatId && sender2.botId == sender.botId
    ensures var (db1, id1, _) := FindOrCreateAllogrooming(db, sender, receiverChatId, receiverBotId, topicId, key);
      var (db2, id2, created2) := FindOrCreateAllogrooming(db1, sender2, receiverChatId, receiverBotId, topicId, key2);
      !created2 && db2 == db1 && id2 == id1
  {
    var (db1, id1, created1) := FindOrCreateAllogrooming(db, sender, receiverChatId, receiverBotId, topicId, key);
    var found := FindAllogrooming(db.allogroomings, sender.chatId, sender.botId, receiverChatId, receiverBotId, topicId);
    if created1 {
      var a := Allogrooming(id1, topicId, sender, receiverChatId, receiverBotId, key);
      assert db1.allogroomings == db.allogroomings + [a];
      assert db1.allogroomings[|db.allogroomings|] == a;
      var f2 := FindAllogrooming(db1.allogroomings, sender.chatId, sender.botId, receiverChatId, receiverBotId, topicId);
      assert f2.Some?;
      var k :| 0 <= k < |db1.allogroomings| && db1.allogroomings[k] == f2.value &&
        forall j :: 0 <= j < k ==> !AllogroomingMatches(db1.allogroomings[j], sender.chatId, sender.botId, receiverChatId, receiverBotId, topicId);
      assert k == |db.allogroomings|;
    } else {
      var k :| 0 <= k < |db.allogroomings| && db.allogroomings[k] == found.value &&
        forall j :: 0 <= j < k ==> !AllogroomingMatches(db.allogroomings[j], sender.chatId, sender.botId, receiverChatId, receiverBotId, topicId);
      var f2 := FindAllogrooming(db1.allogroomings, sender.chatId, sender.botId, receiverChatId, receiverBotId, topicId);
      var k2 :| 0 <= k2 < |db1.allogroomings| && db1.allogroomings[k2] == f2.value &&
        forall j :: 0 <= j < k2 ==> !AllogroomingMatches(db1.allogroomings[j], sender.chatId, sender.botId, receiverChatId, receiverBotId, topicId);
      assert k2 == k;
    }
  }

  // ---------------------------------------------------------------- edit_transmission on values

  /**
   * The signed text an edit puts on every copy: the new text, or the new caption when there is no
   * text, with the username appended; nothing without a username or without text and caption.
   */
  function SignedEdit(scope: Scope, m: Message): (r: Option<(string, seq<Entity>)>)
    ensures r.Some? <==> scope.swiperUsername.Some? && (Truthy(m.text) || Truthy(m.caption))
    ensures r.Some? && Truthy(m.text) ==> (r.value == AppendSwiperUsername(m.text, m.entities, scope.swiperUsername.value) &&
      r.value.0 == m.text.value + Delimiter + scope.swiperUsername.value)
    ensures r.Some? && !Truthy(m.text) ==> (r.value == AppendSwiperUsername(m.caption, m.captionEntities, scope.swiperUsername.value) &&
      r.value.0 == m.caption.value + Delimiter + scope.swiperUsername.value)
  {
    if scope.swiperUsername.None? then None
    else if Truthy(m.text) then Some(AppendSwiperUsername(m.text, m.entities, scope.swiperUsername.value))
    else if Truthy(m.caption) then Some(AppendSwiperUsername(m.caption, m.captionEntities, scope.swiperUsername.value))
    else None
  }

  /**
   * The edit `edit_transmission` makes, if any: the text when present, else the caption, each
   * with the username appended unconditionally (a missing username makes the join raise before
   * any call); neither present means no call.
   */
  function EditAction(scope: Scope, m: Message, receiverMsgId: int, receiverChatId: int, redHeart: bool): (r: Option<Action>)
    ensures r.Some? <==> scope.swiperUsername.Some? && (Truthy(m.text) || Truthy(m.caption))
    ensures r.Some? && Truthy(m.text) ==> (r.value.EditText? && r.value.chatId == receiverChatId && r.value.messageId == receiverMsgId &&
      r.value.text == m.text.value + Delimiter + scope.swiperUsername.value)
    ensures r.Some? && !Truthy(m.text) ==> (r.value.EditCaption? && r.value.chatId == receiverChatId && r.value.messageId == receiverMsgId &&
      r.value.caption == m.caption.value + Delimiter + scope.swiperUsername.value)
    ensures r.Some? ==> r.value.markup == TransmissionKbdMarkup(redHeart, redHeart)
  {
    var markup := TransmissionKbdMarkup(redHeart, redHeart);
    match SignedEdit(scope, m)
    case None => None
    case Some((t, es)) =>
      if Truthy(m.text) then Some(EditText(receiverChatId, receiverMsgId, t, es, markup))
      else Some(EditCaption(receiverChatId, receiverMsgId, t, es, markup))
  }

  /** `edit_transmission` (wrapped by `fail_safely`) on values: truthy iff the edit produced a message. */
  function Edit(bot: BotState, scope: Scope, m: Message, receiverMsgId: int, receiverChatId: int, redHeart: bool): (r: (BotState, bool))
    ensures r.1 <==> EditAction(scope, m, receiverMsgId, receiverChatId, redHeart).Some? && Next(bot.script).Some?
    ensures r.0.script == (if EditAction(scope, m, receiverMsgId, receiverChatId, redHeart).Some? then Rest(bot.script) else bot.script)
    ensures r.0.log == bot.log + (if EditAction(scope, m, receiverMsgId, receiverChatId, redHeart).Some? then [EditAction(scope, m, receiverMsgId, receiverChatId, redHeart).value] else [])
  {
    match EditAction(scope, m, receiverMsgId, receiverChatId, redHeart)
    case None => (bot, false)
    case Some(a) =>
      var (bot1, edited) := Deliver(bot, a);
      (bot1, edited.Some?)
  }

  // ---------------------------------------------------------------- the store and the primitives

  /** The four tables and the id supplier, updated in place by the primitives. */
  class Store {
    var transmissions: seq<Transmission>
    var topics: seq<Topic>
    var subtopics: seq<Subtopic>
    var allogroomings: seq<Allogrooming>
    var nextId: nat

    function State(): Db
      reads this
    {
      Db(transmissions, topics, subtopics, allogroomings, nextId)
    }

    constructor (db: Db)
      ensures State() == db
    {
      transmissions := db.transmissions;
      topics := db.topics;
      subtopics := db.subtopics;
      allogroomings := db.allogroomings;
      nextId := db.nextId;
    }

    /** `generate_uuid`: a value no row holds yet. */
    method GenerateId() returns (id: Id)
      modifies this
      ensures id == old(nextId) && State() == old(State()).(nextId := id + 1)
    {
      id := nextId;
      nextId := nextId + 1;
    }
  }

  /** `create_topic(swiper_update, msg, sender_bot_id)`. */
  method CreateTopic(store: Store, scope: Scope, m: Message, senderBotId: int) returns (topicId: Id)
    modifies store
    ensures (store.State(), topicId) == AddTopic(old(store.State()), Triple(m.messageId, m.chatId, senderBotId), scope.telegramUpdateS3Key)
  {
    topicId := store.GenerateId();
    store.topics := store.topics + [Topic(topicId, Triple(m.messageId, m.chatId, senderBotId), scope.telegramUpdateS3Key)];
  }

  /** `create_subtopic(swiper_update, msg, sender_bot_id, topic_id)`; no handler calls it. */
  method CreateSubtopic(store: Store, scope: Scope, m: Message, senderBotId: int, topicId: Id) returns (subtopicId: Id)
    modifies store
    ensures subtopicId == old(store.nextId) && store.nextId == subtopicId + 1
    ensures store.subtopics == old(store.subtopics) + [Subtopic(subtopicId, Triple(m.messageId, m.chatId, senderBotId), scope.telegramUpdateS3Key, topicId)]
    ensures store.transmissions == old(store.transmissions) && store.topics == old(store.topics) && store.allogroomings == old(store.allogroomings)
  {
    subtopicId := store.GenerateId();
    store.subtopics := store.subtopics + [Subtopic(subtopicId, Triple(m.messageId, m.chatId, senderBotId), scope.telegramUpdateS3Key, topicId)];
  }

  /** `create_allogrooming(swiper_update, msg, sender_bot_id, receiver_chat_id, receiver_bot_id, topic_id)`. */
  method CreateAllogrooming(store: Store, scope: Scope, m: Message, senderBotId: int, receiverChatId: int, receiverBotId: int, topicId: Id) returns (id: Id)
    modifies store
    ensures (store.State(), id) == AddAllogrooming(old(store.State()), Triple(m.messageId, m.chatId, senderBotId), receiverChatId, receiverBotId, topicId, scope.telegramUpdateS3Key)
  {
    id := store.GenerateId();
    store.allogroomings := store.allogroomings + [Allogrooming(id, topicId, Triple(m.messageId, m.chatId, senderBotId), receiverChatId, receiverBotId, scope.telegramUpdateS3Key)];
  }

  /** `_ptb_transmit`: at most one delivering call, chosen by the message's content. */
  method PtbTransmit(bot: Bot, m: Message, receiverChatId: int, usernameToAppend: Option<string>, options: SendOptions, blackHeartsAreSilent: bool) returns (transmitted: Option<int>)
    modifies bot
    ensures PtbAction(m, receiverChatId, usernameToAppend, options, blackHeartsAreSilent).None? ==> bot.State() == old(bot.State()) && transmitted.None?
    ensures PtbAction(m, receiverChatId, usernameToAppend, options, blackHeartsAreSilent).Some? ==>
      (bot.State(), transmitted) == Deliver(old(bot.State()), PtbAction(m, receiverChatId, usernameToAppend, options, blackHeartsAreSilent).value)
  {
    var a := PtbAction(m, receiverChatId, usernameToAppend, options, blackHeartsAreSilent);
    if a.None? {
      return None;
    }
    transmitted := bot.Call(a.value);
  }

  /** `transmit_message(...)` as wrapped by `fail_safely`: `ok` is its truthiness. */
  method TransmitMessage(store: Store, bot: Bot, scope: Scope, m: Message, senderBotId: int, req: Req) returns (ok: bool)
    modifies store, bot
    ensures Outcome(store.State(), bot.State(), ok) == Transmit(old(store.State()), old(bot.State()), scope, m, senderBotId, bot.id, req)
  {
    var transmitted := PtbTransmit(bot, m, req.receiverChatId, scope.swiperUsername, TransmitOptions(req), scope.blackHeartsAreSilent);
    if transmitted.None? {
      return false;
    }
    var id := store.GenerateId();
    store.transmissions := store.transmissions + [TransmissionRow(scope, m, senderBotId, bot.id, req, id, transmitted.value)];
    if req.replyToMsgId.Some? {
      bot.Do(ClearKeyboard(req.receiverChatId, req.replyToMsgId.value));
    }
    ok := true;
  }

  /** `force_reply(original_msg, original_msg_transmission)`; `ok` is false where it raises. */
  method ForceReply(store: Store, bot: Bot, m: Message, row: Transmission, blackHeartsAreSilent: bool) returns (ok: bool)
    modifies store, bot
    ensures Outcome(store.State(), bot.State(), ok) == ForceReplySpec(old(store.State()), old(bot.State()), m, row, blackHeartsAreSilent)
  {
    var prompt := PtbTransmit(bot, m, m.chatId, None, SendOptions(m.replyTo, ForceReplyMarkup, true, true), blackHeartsAreSilent);
    if prompt.None? {
      return false;
    }
    var copy := row.(originalMsgTransId := Some(row.id));
    var newId := store.GenerateId();
    copy := copy.(id := newId);
    copy := copy.(receiver := Triple(prompt.value, m.chatId, m.botId));
    store.transmissions := store.transmissions + [copy];
    store.transmissions := Without(store.transmissions, row.id);
    ok := true;
  }

  /** `edit_transmission(...)` as wrapped by `fail_safely`: `edited` is its truthiness. */
  method EditTransmission(bot: Bot, scope: Scope, m: Message, receiverMsgId: int, receiverChatId: int, redHeart: bool) returns (edited: bool)
    modifies bot
    ensures (bot.State(), edited) == Edit(old(bot.State()), scope, m, receiverMsgId, receiverChatId, redHeart)
  {
    var a := EditAction(scope, m, receiverMsgId, receiverChatId, redHeart);
    if a.None? {
      return false;
    }
    var r := bot.Call(a.value);
    edited := r.Some?;
  }
}
