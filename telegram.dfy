/**
 * The Telegram side of the relay: incoming messages as values, the platform calls the bots
 * make, and `Bot`, the oracle that stands for the Bot API. Every call a handler makes is
 * appended to the bot's `log`; a call that delivers a message (sending, forwarding, editing)
 * also takes the next entry of `script`, the platform's answer: the id of the message it
 * produced, or `None` when the call raised or produced nothing.
 */
module Telegram {
  import opened Wrappers

  /** A message entity (formatting span); offsets and lengths are in UTF-16 code units. */
  datatype Entity = Entity(kind: string, offset: int, length: int)

  /** One size of a photo; `file_size` is what the biggest-photo choice compares. */
  datatype PhotoSize = PhotoSize(fileId: string, fileSize: int)

  /**
   * An incoming message. The media fields hold a file reference, or `None` when absent;
   * `photo` is the list of sizes (empty when the message is not a photo); `replyTo` is the
   * id of the message this one replies to, in the same chat.
   */
  datatype Message = Message(
    messageId: int,
    chatId: int,
    botId: int,
    text: Option<string>,
    entities: Option<seq<Entity>>,
    caption: Option<string>,
    captionEntities: Option<seq<Entity>>,
    sticker: Option<string>,
    photo: seq<PhotoSize>,
    animation: Option<string>,
    video: Option<string>,
    audio: Option<string>,
    videoNote: Option<string>,
    voice: Option<string>,
    location: Option<string>,
    contact: Option<string>,
    document: Option<string>,
    poll: Option<string>,
    replyTo: Option<int>)

  /** Python truthiness of optional text: present and non-empty. */
  predicate Truthy(s: Option<string>) {
    s.Some? && s.value != ""
  }

  /** The message's id triple as it appears in the transmission table. */
  datatype Triple = Triple(msgId: int, chatId: int, botId: int)

  function TripleOf(m: Message): Triple {
    Triple(m.messageId, m.chatId, m.botId)
  }

  datatype Heart = RedHeart | BlackHeart

  datatype CallbackData = ReplyData | ShareData | LikeData | DislikeData | StopData | RejectData

  /** A button's label, named by what it shows (the label texts themselves are string constants). */
  datatype Label = HeartReply(heart: Heart) | ShareLabel | LikeLabel(heart: Heart) | DislikeLabel | StopLabel | RejectLabel

  datatype Button = Button(face: Label, data: CallbackData)

  datatype Markup = NoMarkup | InlineKeyboard(rows: seq<seq<Button>>) | ForceReplyMarkup

  /** The keyword arguments a relayed message is sent with. */
  datatype SendOptions = SendOptions(
    replyTo: Option<int>,
    markup: Markup,
    disableNotification: bool,
    allowWithoutReply: bool)

  /** Text or caption with its entities, as handed to the Bot API (either may be `None`). */
  datatype Caption = Caption(text: Option<string>, entities: Option<seq<Entity>>)

  /** What a relayed message carries, one variant per `send_*` method. */
  datatype Content =
    | TextContent(body: Caption)
    | StickerContent(sticker: string)
    | PhotoContent(photo: PhotoSize, caption: Caption)
    | AnimationContent(animation: string, caption: Caption)
    | VideoContent(video: string, caption: Caption)
    | AudioContent(audio: string, caption: Caption)
    | VideoNoteContent(videoNote: string)
    | VoiceContent(voice: string, caption: Caption)
    | LocationContent(location: string)
    | ContactContent(contact: string)
    | DocumentContent(document: string, caption: Caption)

  /** The short texts the bots answer with; their wording lives in string tables. */
  datatype Notice =
    | NewTopicStarted | TalkNotFound | MessageNotTransmitted | FailedToEditAtReceiver
    | TalkStopped | TransmissionNotFound | TransmissionRejected | NewTransmissionStarted
    | Liked | Disliked | Rejected

  /** Every platform call a handler makes. */
  datatype Action =
    | Send(chatId: int, content: Content, options: SendOptions)
    | ForwardPoll(chatId: int, fromChatId: int, messageId: int, disableNotification: bool)
    | EditText(chatId: int, messageId: int, text: string, entities: seq<Entity>, markup: Markup)
    | EditCaption(chatId: int, messageId: int, caption: string, entities: seq<Entity>, markup: Markup)
    | SendPlain(chatId: int, plainText: Option<string>, replyTo: Option<int>, markup: Markup)
    | Notify(chatId: int, notice: Notice, replyTo: Option<int>)
    | AnswerCallback(popup: Option<Notice>)
    | ClearKeyboard(chatId: int, messageId: int)
    | Delete(chatId: int, messageId: int)
    | Greet(chatId: int)
    | Hello(chatId: int, greeting: string, closeWith: CallbackData)
    | Answer(chatId: int, text: string)
    | OldTransmit(receiverChatId: int, replyTo: Option<int>, redHeart: bool)
    | OldEdit(receiverChatId: int, receiverMsgId: int, redHeart: bool)
    | OldForceReply(prompt: Triple, transmissionId: nat)
    | ReportError(chatId: int)
    | SendHelp(chatId: int, swiperUsername: Option<string>)
    | SendAbout(chatId: int)

  /** The platform's answer to the next delivering call: `None` once the script is exhausted. */
  function Next(script: seq<Option<int>>): Option<int> {
    if |script| == 0 then None else script[0]
  }

  function Rest(script: seq<Option<int>>): seq<Option<int>> {
    if |script| == 0 then [] else script[1..]
  }

  /** The answers left after `n` delivering calls. */
  function Drop(script: seq<Option<int>>, n: nat): (r: seq<Option<int>>)
    ensures |r| == if n <= |script| then |script| - n else 0
  {
    if n <= |script| then script[n..] else []
  }

  /** The answer the `k`-th delivering call (from 0) gets. */
  function AnswerAt(script: seq<Option<int>>, k: nat): Option<int> {
    if k < |script| then script[k] else None
  }

  /** One more delivering call takes the next answer and leaves the rest. */
  lemma DropStep(script: seq<Option<int>>, n: nat)
    ensures Next(Drop(script, n)) == AnswerAt(script, n)
    ensures Rest(Drop(script, n)) == Drop(script, n + 1)
  {
    if n < |script| {
      assert script[n..][1..] == script[n + 1..];
    }
  }

  /** The number of the first `n` delivering calls that produced a message. */
  function CountDelivered(script: seq<Option<int>>, n: nat): (c: nat)
    ensures c <= n
  {
    if n == 0 then 0 else CountDelivered(script, n - 1) + (if AnswerAt(script, n - 1).Some? then 1 else 0)
  }

  /** The calls that relay a message (sending or forwarding), in the order they were made. */
  function Deliveries(log: seq<Action>): seq<Action>
  {
    if log == [] then []
    else
      var init := Deliveries(log[..|log| - 1]);
      var last := log[|log| - 1];
      assert log == log[..|log| - 1] + [last];
      if last.Send? || last.ForwardPoll? then init + [last] else init
  }

  /** The deliveries are the relaying calls of the log and nothing else. */
  lemma {:induction false} DeliveriesMembers(log: seq<Action>)
    ensures forall a :: a in Deliveries(log) <==> a in log && (a.Send? || a.ForwardPoll?)
  {
    if log != [] {
      DeliveriesMembers(log[..|log| - 1]);
      assert log == log[..|log| - 1] + [log[|log| - 1]];
    }
  }

  lemma DeliveriesSnoc(log: seq<Action>, a: Action)
    ensures Deliveries(log + [a]) == Deliveries(log) + (if a.Send? || a.ForwardPoll? then [a] else [])
  {
    assert (log + [a])[..|log|] == log;
  }

  /** The oracle's state as a value: answers still to come and calls made so far. */
  datatype BotState = BotState(script: seq<Option<int>>, log: seq<Action>)

  /** A delivering call: consumes one answer and logs the call. */
  function Deliver(b: BotState, a: Action): (BotState, Option<int>) {
    (BotState(Rest(b.script), b.log + [a]), Next(b.script))
  }

  /** A call whose answer nothing depends on: logged only. */
  function Perform(b: BotState, a: Action): BotState {
    b.(log := b.log + [a])
  }

  /** The bot an update arrived through, as the Bot API oracle. */
  class Bot {
    const id: int
    var script: seq<Option<int>>
    var log: seq<Action>

    function State(): BotState
      reads this
    {
      BotState(script, log)
    }

    constructor (id: int, script: seq<Option<int>>)
      ensures this.id == id && State() == BotState(script, [])
    {
      this.id := id;
      this.script := script;
      this.log := [];
    }

    /** A call that produces a message (send, forward, edit): answers with its id or `None`. */
    method Call(a: Action) returns (r: Option<int>)
      modifies this
      ensures (State(), r) == Deliver(old(State()), a)
    {
      r := Next(script);
      script := Rest(script);
      log := log + [a];
    }

    /** A call whose answer is not used (notices, deletes, keyboard clears, callback answers). */
    method Do(a: Action)
      modifies this
      ensures State() == Perform(old(State()), a)
    {
      log := log + [a];
    }
  }
}
