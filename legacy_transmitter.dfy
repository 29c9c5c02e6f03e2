/**
 * The first relay's transmitter: a copy of the message's text with a like/dislike keyboard,
 * and a transmission row without topic, allogrooming, reply or heart columns. Its rows live in
 * the same transmission table as the later relay's (absent columns are `None`), so the lookup
 * by receiver copy is `MessageTransmitter.FindOriginalTransmission`, the very query this
 * transmitter's lookup runs; the integer coercions of its arguments are the identity on ids.
 */
module LegacyTransmitter {
  import opened Wrappers
  import opened Telegram
  import opened MessageTransmitter

  /** The keyboard every relayed copy carries: a like button and a dislike button. */
  function LikeKeyboard(): Markup {
    InlineKeyboard([[Button(LikeLabel(RedHeart), LikeData), Button(DislikeLabel, DislikeData)]])
  }

  /** The one delivering call: the effective message's text (possibly absent) to the receiver chat. */
  function LegacySendAction(m: Message, receiverChatId: int, replyToMsgId: Option<int>): Action {
    SendPlain(receiverChatId, m.text, replyToMsgId, LikeKeyboard())
  }

  /** The row written for a copy delivered as message `receiverMsgId`; the older columns only. */
  function LegacyRow(scope: Scope, m: Message, senderBotId: int, receiverChatId: int, receiverBotId: int, id: Id, receiverMsgId: int): Transmission {
    Transmission(id, None, None, None, None,
      Triple(m.messageId, m.chatId, senderBotId), Triple(receiverMsgId, receiverChatId, receiverBotId),
      None, None, None,
      scope.telegramUpdateS3Key, ReceiverMsgS3Key(scope.updateS3KeyPrefix, id))
  }

  /** Tables, platform, and how the call ended: it raised, or it returned (a value or `None`). */
  datatype LegacyOutcome = LegacyOutcome(db: Db, bot: BotState, result: CallResult<bool>)

  /**
   * `transmit_message(swiper_update, sender_bot_id, receiver_chat_id, receiver_bot, reply_to_msg_id)`
   * on values. It is not fail-safe: when the platform gives no message, reading its id raises
   * and nothing is written. Otherwise one row is written under a fresh id. It has no return
   * statement, so a call that does not raise yields `None`.
   */
  function LegacyTransmit(db: Db, bot: BotState, scope: Scope, m: Message, senderBotId: int, receiverChatId: int, receiverBotId: int, replyToMsgId: Option<int>): (r: LegacyOutcome)
    ensures r.bot.log == bot.log + [LegacySendAction(m, receiverChatId, replyToMsgId)] && r.bot.script == Rest(bot.script)
    ensures r.result.Raised? <==> Next(bot.script).None?
    ensures r.result.Returned? ==> r.result.value.None?
    ensures r.result.Raised? ==> r.db == db
    ensures r.result.Returned? ==> r.db == db.(transmissions := db.transmissions + [LegacyRow(scope, m, senderBotId, receiverChatId, receiverBotId, db.nextId, Next(bot.script).value)], nextId := db.nextId + 1)
  {
    var (bot1, delivered) := Deliver(bot, LegacySendAction(m, receiverChatId, replyToMsgId));
    match delivered
    case None => LegacyOutcome(db, bot1, Raised)
    case Some(receiverMsgId) =>
      var row := LegacyRow(scope, m, senderBotId, receiverChatId, receiverBotId, db.nextId, receiverMsgId);
      LegacyOutcome(db.(transmissions := db.transmissions + [row], nextId := db.nextId + 1), bot1, Returned(None))
  }

  /**
   * A copy that arrived is one new row: the sender triple of the message, the receiver triple of
   * the copy, an id no row had and the archive key built from it, no later-relay columns; the
   * other tables are untouched and the store stays valid.
   */
  lemma LegacyTransmitWritesOneRow(db: Db, bot: BotState, scope: Scope, m: Message, senderBotId: int, receiverChatId: int, receiverBotId: int, replyToMsgId: Option<int>)
    requires Valid(db)
    ensures var r := LegacyTransmit(db, bot, scope, m, senderBotId, receiverChatId, receiverBotId, replyToMsgId);
      Valid(r.db) && r.db.topics == db.topics && r.db.subtopics == db.subtopics && r.db.allogroomings == db.allogroomings &&
      |r.db.transmissions| == |db.transmissions| + (if r.result.Returned? then 1 else 0) &&
      r.db.transmissions[..|db.transmissions|] == db.transmissions &&
      (r.result.Returned? ==> var t := r.db.transmissions[|db.transmissions|];
        (forall k :: 0 <= k < |db.transmissions| ==> db.transmissions[k].id != t.id) &&
        t.sender == Triple(m.messageId, m.chatId, senderBotId) &&
        t.receiver == Triple(Next(bot.script).value, receiverChatId, receiverBotId) &&
        t.topicId.None? && t.allogroomingId.None? && t.replyToMsgId.None? && t.redHeart.None? && t.originalMsgTransId.None? &&
        t.senderUpdateS3Key == scope.telegramUpdateS3Key &&
        t.receiverMsgS3Key == ReceiverMsgS3Key(scope.updateS3KeyPrefix, t.id))
  {
    var r := LegacyTransmit(db, bot, scope, m, senderBotId, receiverChatId, receiverBotId, replyToMsgId);
    if r.result.Returned? {
      assert r.db.transmissions[..|db.transmissions|] == db.transmissions;
    } else {
      assert db.transmissions[..|db.transmissions|] == db.transmissions;
    }
  }

  /**
   * The copy can be traced back: when no row had its receiver triple before, looking the copy
   * up by that triple finds the row just written, whose sender side is the relayed message.
   */
  lemma LegacyCopyIsFound(db: Db, bot: BotState, scope: Scope, m: Message, senderBotId: int, receiverChatId: int, receiverBotId: int, replyToMsgId: Option<int>)
    requires Next(bot.script).Some?
    requires forall k :: 0 <= k < |db.transmissions| ==> db.transmissions[k].receiver != Triple(Next(bot.script).value, receiverChatId, receiverBotId)
    ensures var r := LegacyTransmit(db, bot, scope, m, senderBotId, receiverChatId, receiverBotId, replyToMsgId);
      FindOriginalTransmission(r.db.transmissions, Triple(Next(bot.script).value, receiverChatId, receiverBotId)) ==
        Some(LegacyRow(scope, m, senderBotId, receiverChatId, receiverBotId, db.nextId, Next(bot.script).value))
  {
    var r := LegacyTransmit(db, bot, scope, m, senderBotId, receiverChatId, receiverBotId, replyToMsgId);
    assert forall j :: 0 <= j < |db.transmissions| ==> r.db.transmissions[j] == db.transmissions[j];
  }

  /** `transmit_message` of the first relay; `result` is how the call ended. */
  method LegacyTransmitMessage(store: Store, bot: Bot, scope: Scope, m: Message, senderBotId: int, receiverChatId: int, replyToMsgId: Option<int>)
    returns (result: CallResult<bool>)
    modifies store, bot
    ensures LegacyOutcome(store.State(), bot.State(), result) == LegacyTransmit(old(store.State()), old(bot.State()), scope, m, senderBotId, receiverChatId, bot.id, replyToMsgId)
  {
    var delivered := bot.Call(LegacySendAction(m, receiverChatId, replyToMsgId));
    if delivered.None? {
      return Raised;
    }
    var id := store.GenerateId();
    store.transmissions := store.transmissions + [LegacyRow(scope, m, senderBotId, receiverChatId, bot.id, id, delivered.value)];
    result := Returned(None);
  }
}
