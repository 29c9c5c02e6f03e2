/**
 * The conversation-state handlers of the second experimental swiper: `/start`, a user's
 * thought, which a talkative bot echoes back, and the dislike button. They keep no thought
 * context; only the latest message ids of the chat data change.
 */
module SwiperTwo {
  import opened Wrappers
  import opened Thoughts
  import CommonSwiper

  /** What a handler had the presentation show. */
  type Presented = CommonSwiper.Presented

  /** `start`: the chat data is shown only when the bot is not silent. */
  method Start(chatData: ChatData) returns (shown: seq<Presented>)
    modifies chatData
    ensures shown == if old(chatData.isBotSilent).GetOr(true) then [] else [CommonSwiper.SaidHello]
    ensures chatData.isBotSilent == Some(old(chatData.isBotSilent).GetOr(true))
    ensures chatData.thoughtCtx == old(chatData.thoughtCtx) && chatData.answererMode == old(chatData.answererMode)
    ensures chatData.latestMsgId == old(chatData.latestMsgId) && chatData.latestAnswerMsgId == old(chatData.latestAnswerMsgId)
  {
    var silent := CommonSwiper.IsBotSilent(chatData);
    shown := if silent then [] else [CommonSwiper.SaidHello];
  }

  /**
   * `user_thought`: a bot that is not silent sends the user's text back, and the message it
   * sends (`botMsgId`) becomes both the latest answer and the latest message (BOT_REPLIED); a
   * silent bot only records the user's message as the latest (USER_REPLIED).
   */
  method UserThought(chatData: ChatData, userMsgId: int, text: string, botMsgId: int)
    returns (who: ConvState, shown: seq<Presented>)
    modifies chatData
    ensures var silent := old(chatData.isBotSilent).GetOr(true);
      chatData.isBotSilent == Some(silent) &&
      who == (if silent then UserReplied else BotReplied) &&
      shown == (if silent then [] else [CommonSwiper.Answered(text)]) &&
      chatData.latestMsgId == Some(if silent then userMsgId else botMsgId) &&
      chatData.latestAnswerMsgId == (if silent then old(chatData.latestAnswerMsgId) else Some(botMsgId))
    ensures chatData.thoughtCtx == old(chatData.thoughtCtx) && chatData.answererMode == old(chatData.answererMode)
  {
    var silent := CommonSwiper.IsBotSilent(chatData);
    if !silent {
      shown := [CommonSwiper.Answered(text)];
      chatData.latestAnswerMsgId := Some(botMsgId);
      chatData.latestMsgId := Some(botMsgId);
      return BotReplied, shown;
    }
    chatData.latestMsgId := Some(userMsgId);
    who, shown := UserReplied, [];
  }

  /**
   * `dislike`: on the latest message it is shown as rejected and PTB goes back to
   * USER_REPLIED; on any other message the dislike is only shown and no state is returned.
   * The chat data does not change either way.
   */
  method Dislike(chatData: ChatData, msgId: int) returns (r: Option<ConvState>, shown: seq<Presented>)
    ensures chatData.latestMsgId == Some(msgId) ==> r == Some(UserReplied) && shown == [CommonSwiper.Rejected]
    ensures chatData.latestMsgId != Some(msgId) ==> r.None? && shown == [CommonSwiper.Disliked]
  {
    if chatData.latestMsgId == Some(msgId) {
      return Some(UserReplied), [CommonSwiper.Rejected];
    }
    return None, [CommonSwiper.Disliked];
  }
  // ---------------------------------------------------------------- the handlers as written

  // The presentation reads `swiper_update.swiper_chat_data` to greet and
  // `swiper_update.update_s3_filename_prefix` to audit an answer; the update defines neither,
  // so both raise. The handlers above are the intended ones; these are the ones that run.

  /** `start` as it runs: a bot that is not silent raises where it would show the chat data. */
  method StartAsWritten(chatData: ChatData) returns (r: CallResult<()>)
    modifies chatData
    ensures r.Raised? <==> !old(chatData.isBotSilent).GetOr(true)
    ensures r.Returned? ==> r.value.None?
    ensures chatData.isBotSilent == Some(old(chatData.isBotSilent).GetOr(true))
    ensures chatData.thoughtCtx == old(chatData.thoughtCtx) && chatData.answererMode == old(chatData.answererMode)
    ensures chatData.latestMsgId == old(chatData.latestMsgId) && chatData.latestAnswerMsgId == old(chatData.latestAnswerMsgId)
  {
    var silent := CommonSwiper.IsBotSilent(chatData);
    r := if silent then Returned(None) else Raised;
  }

  /**
   * `user_thought` as it runs: a bot that is not silent sends the echo and then raises while
   * auditing it, so neither latest id is updated and the conversation keeps its state. A silent
   * bot does what the intended handler does.
   */
  method UserThoughtAsWritten(chatData: ChatData, userMsgId: int, text: string)
    returns (r: CallResult<ConvState>, shown: seq<Presented>)
    modifies chatData
    ensures var silent := old(chatData.isBotSilent).GetOr(true);
      chatData.isBotSilent == Some(silent) &&
      (r.Raised? <==> !silent) &&
      (silent ==> r == Returned(Some(UserReplied))) &&
      shown == (if silent then [] else [CommonSwiper.Answered(text)]) &&
      chatData.latestMsgId == (if silent then Some(userMsgId) else old(chatData.latestMsgId))
    ensures chatData.latestAnswerMsgId == old(chatData.latestAnswerMsgId)
    ensures chatData.thoughtCtx == old(chatData.thoughtCtx) && chatData.answererMode == old(chatData.answererMode)
  {
    var silent := CommonSwiper.IsBotSilent(chatData);
    if !silent {
      shown := [CommonSwiper.Answered(text)];
      return Raised, shown;
    }
    chatData.latestMsgId := Some(userMsgId);
    r, shown := Returned(Some(UserReplied)), [];
  }

  /**
   * In a fresh chat with a talkative bot, tapping dislike on the echo rejects it under the
   * intended handlers, but under the handlers as written the echo never became the latest
   * message, so the tap is only a dislike.
   */
  method EchoRejectedOnlyAsIntended(userMsgId: int, text: string, botMsgId: int)
    returns (intended: Option<ConvState>, asWritten: Option<ConvState>)
    ensures intended == Some(UserReplied)
    ensures asWritten.None?
  {
    var chat := new ChatData();
    chat.isBotSilent := Some(false);
    var who, shown := UserThought(chat, userMsgId, text, botMsgId);
    intended, shown := Dislike(chat, botMsgId);
    var raising := new ChatData();
    raising.isBotSilent := Some(false);
    var r;
    r, shown := UserThoughtAsWritten(raising, userMsgId, text);
    asWritten, shown := Dislike(raising, botMsgId);
  }
}
