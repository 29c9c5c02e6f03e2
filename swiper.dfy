/**
 * The conversation-state handlers of the shared swiper conversation: `/start`, a user's
 * thought with the bot's possible answer, and the dislike button. They work on one chat's
 * chat data and its thought context; what the search service answers is an input.
 */
module CommonSwiper {
  import opened Wrappers
  import opened Thoughts

  /** What a handler had the presentation show. */
  datatype Presented = SaidHello | Answered(text: string) | Disliked | Rejected

  /** A state a handler hands PTB: one of the conversation states, or the end of the conversation. */
  datatype Next = State(s: ConvState) | End

  /** An answer found by the search service: the text to send and the id of the thought it came from. */
  datatype Answer = Answer(text: string, thoughtId: string)

  /** `is_bot_silent(context)`: the stored flag, `True` by default, and the default is then stored. */
  method IsBotSilent(chatData: ChatData) returns (silent: bool)
    modifies chatData
    ensures silent == old(chatData.isBotSilent).GetOr(true)
    ensures chatData.isBotSilent == Some(silent)
    ensures chatData.thoughtCtx == old(chatData.thoughtCtx) && chatData.answererMode == old(chatData.answererMode)
    ensures chatData.latestMsgId == old(chatData.latestMsgId) && chatData.latestAnswerMsgId == old(chatData.latestAnswerMsgId)
  {
    if chatData.isBotSilent.None? {
      chatData.isBotSilent := Some(true);
    }
    silent := chatData.isBotSilent.value;
  }

  /** `start`: the greeting is shown only when the bot is not silent. */
  method Start(chatData: ChatData) returns (shown: seq<Presented>)
    modifies chatData
    ensures shown == if old(chatData.isBotSilent).GetOr(true) then [] else [SaidHello]
    ensures chatData.isBotSilent == Some(old(chatData.isBotSilent).GetOr(true))
    ensures chatData.thoughtCtx == old(chatData.thoughtCtx) && chatData.answererMode == old(chatData.answererMode)
    ensures chatData.latestMsgId == old(chatData.latestMsgId) && chatData.latestAnswerMsgId == old(chatData.latestAnswerMsgId)
  {
    var silent := IsBotSilent(chatData);
    shown := if silent then [] else [SaidHello];
  }

  /** The thoughts `user_thought` appends: the user's, then the bot's answer when there is one. */
  function Added(user: Thought, answer: Option<Answer>, botMsgId: int, answeredAt: int): (r: seq<Thought>)
    ensures 1 <= |r| <= 2 && r[0] == user
    ensures |r| == 2 <==> answer.Some?
    ensures answer.Some? ==> r[1] == Thought(answer.value.text, answer.value.thoughtId, botMsgId, BotReplied, answeredAt)
  {
    if answer.Some? then [user, Thought(answer.value.text, answer.value.thoughtId, botMsgId, BotReplied, answeredAt)] else [user]
  }

  /**
   * `user_thought`: the user's thought is appended first, under its thought id, as
   * USER_REPLIED. A silent bot consults nobody; otherwise the answerer mode is defaulted to
   * `defaultMode` and `answer` is what the search service found. An answer is shown, appended
   * as BOT_REPLIED and becomes the latest message; without one the user's message is the
   * latest. The context is then trimmed to the last 15 thoughts. `userAt` and `answeredAt` are
   * the clock readings of the two appends, `botMsgId` the id of the message that shows the answer.
   */
  method UserThought(chatData: ChatData, botId: int, chatId: int, userMsgId: int, text: string,
                     defaultMode: string, answer: Option<Answer>, botMsgId: int, userAt: int, answeredAt: int)
    returns (who: ConvState, shown: seq<Presented>)
    modifies chatData
    ensures var silent := old(chatData.isBotSilent).GetOr(true);
      var a := if silent then None else answer;
      var user := Thought(text, ConstructThoughtId(userMsgId, chatId, botId), userMsgId, UserReplied, userAt);
      chatData.thoughtCtx == Some(LastN(old(chatData.Thoughts()) + Added(user, a, botMsgId, answeredAt), MaxThoughtCtxLen)) &&
      who == (if a.Some? then BotReplied else UserReplied) &&
      shown == (if a.Some? then [Answered(a.value.text)] else []) &&
      chatData.latestMsgId == Some(if a.Some? then botMsgId else userMsgId) &&
      chatData.latestAnswerMsgId == (if a.Some? then Some(botMsgId) else old(chatData.latestAnswerMsgId)) &&
      chatData.isBotSilent == Some(silent) &&
      chatData.answererMode == (if silent then old(chatData.answererMode) else Some(old(chatData.answererMode).GetOr(defaultMode)))
  {
    ghost var ts := chatData.Thoughts();
    var thoughtId := ConstructThoughtId(userMsgId, chatId, botId);
    var thoughtCtx := new ThoughtContext(chatData);
    who := UserReplied;
    thoughtCtx.AppendThought(text, thoughtId, userMsgId, who, userAt);
    ghost var user := Thought(text, thoughtId, userMsgId, UserReplied, userAt);
    assert chatData.Thoughts() == ts + [user];
    var silent := IsBotSilent(chatData);
    var a: Option<Answer> := None;
    if !silent {
      if chatData.answererMode.None? {
        chatData.answererMode := Some(defaultMode);
      }
      a := answer;
    }
    if a.Some? {
      shown := [Answered(a.value.text)];
      who := BotReplied;
      thoughtCtx.AppendThought(a.value.text, a.value.thoughtId, botMsgId, who, answeredAt);
      chatData.latestAnswerMsgId := Some(botMsgId);
      chatData.latestMsgId := Some(botMsgId);
    } else {
      shown := [];
      chatData.latestMsgId := Some(userMsgId);
    }
    assert chatData.Thoughts() == ts + Added(user, a, botMsgId, answeredAt);
    thoughtCtx.TrimContext(MaxThoughtCtxLen);
  }

  /**
   * `dislike`: on the latest message the latest thought is rejected and PTB goes back to the
   * state of the thought before it, or ends the conversation when none is left; rejecting
   * raises when the latest thought is not of that message. On any other message the dislike
   * is only shown and the handler returns no state.
   */
  method Dislike(chatData: ChatData, msgId: int) returns (r: CallResult<Next>, shown: seq<Presented>)
    modifies chatData
    ensures chatData.isBotSilent == old(chatData.isBotSilent) && chatData.answererMode == old(chatData.answererMode)
    ensures chatData.latestMsgId == old(chatData.latestMsgId) && chatData.latestAnswerMsgId == old(chatData.latestAnswerMsgId)
    ensures old(chatData.latestMsgId) != Some(msgId) ==>
      r == Returned(None) && shown == [Disliked] && chatData.thoughtCtx == old(chatData.thoughtCtx)
    ensures old(chatData.latestMsgId) == Some(msgId) && RejectLatest(old(chatData.Thoughts()), msgId).None? ==>
      r.Raised? && shown == [] && chatData.thoughtCtx == Some(old(chatData.Thoughts()))
    ensures old(chatData.latestMsgId) == Some(msgId) && RejectLatest(old(chatData.Thoughts()), msgId).Some? ==>
      var rest := RejectLatest(old(chatData.Thoughts()), msgId).value;
      chatData.thoughtCtx == Some(rest) && shown == [Rejected] &&
      r == Returned(Some(if rest == [] then End else State(rest[|rest| - 1].convState)))
  {
    if chatData.latestMsgId != Some(msgId) {
      return Returned(None), [Disliked];
    }
    var thoughtCtx := new ThoughtContext(chatData);
    var ok := thoughtCtx.RejectLatestThought(msgId);
    if !ok {
      return Raised, [];
    }
    var previous := thoughtCtx.GetLatestConvState();
    var next := if previous.None? then End else State(previous.value);
    r := Returned(Some(next));
    shown := [Rejected];
  }

  // ---------------------------------------------------------------- the handlers as written

  // `configure_dispatcher` builds every `CommonStateHandlers` with its two arguments swapped:
  // the conversation lands in `conv_state` and the state in `swiper_conversation`. Each
  // reach for `self.swiper_presentation` therefore raises, and the conversation keeps its state.
  // The handlers above are the intended ones; these are the ones that run.

  /** `start` as it runs: a bot that is not silent raises where it would greet. */
  method StartAsWritten(chatData: ChatData) returns (r: CallResult<()>)
    modifies chatData
    ensures r.Raised? <==> !old(chatData.isBotSilent).GetOr(true)
    ensures r.Returned? ==> r.value.None?
    ensures chatData.isBotSilent == Some(old(chatData.isBotSilent).GetOr(true))
    ensures chatData.thoughtCtx == old(chatData.thoughtCtx) && chatData.answererMode == old(chatData.answererMode)
    ensures chatData.latestMsgId == old(chatData.latestMsgId) && chatData.latestAnswerMsgId == old(chatData.latestAnswerMsgId)
  {
    var silent := IsBotSilent(chatData);
    r := if silent then Returned(None) else Raised;
  }

  /**
   * `user_thought` as it runs: when there is an answer to show, the handler raises after the
   * user's thought, the silence flag and the answerer mode are stored, but before the answer is
   * sent, recorded or made the latest message, and before the context is trimmed. Without an
   * answer it does what the intended handler does.
   */
  method UserThoughtAsWritten(chatData: ChatData, botId: int, chatId: int, userMsgId: int, text: string,
                              defaultMode: string, answer: Option<Answer>, userAt: int)
    returns (r: CallResult<ConvState>, shown: seq<Presented>)
    modifies chatData
    ensures var silent := old(chatData.isBotSilent).GetOr(true);
      var a := if silent then None else answer;
      var user := Thought(text, ConstructThoughtId(userMsgId, chatId, botId), userMsgId, UserReplied, userAt);
      shown == [] &&
      (r.Raised? <==> a.Some?) &&
      (a.Some? ==>
        chatData.thoughtCtx == Some(old(chatData.Thoughts()) + [user]) &&
        chatData.latestMsgId == old(chatData.latestMsgId)) &&
      (a.None? ==>
        r == Returned(Some(UserReplied)) &&
        chatData.thoughtCtx == Some(LastN(old(chatData.Thoughts()) + [user], MaxThoughtCtxLen)) &&
        chatData.latestMsgId == Some(userMsgId)) &&
      chatData.latestAnswerMsgId == old(chatData.latestAnswerMsgId) &&
      chatData.isBotSilent == Some(silent) &&
      chatData.answererMode == (if silent then old(chatData.answererMode) else Some(old(chatData.answererMode).GetOr(defaultMode)))
  {
    var thoughtId := ConstructThoughtId(userMsgId, chatId, botId);
    var thoughtCtx := new ThoughtContext(chatData);
    thoughtCtx.AppendThought(text, thoughtId, userMsgId, UserReplied, userAt);
    var silent := IsBotSilent(chatData);
    var a: Option<Answer> := None;
    if !silent {
      if chatData.answererMode.None? {
        chatData.answererMode := Some(defaultMode);
      }
      a := answer;
    }
    shown := [];
    if a.Some? {
      return Raised, shown;
    }
    chatData.latestMsgId := Some(userMsgId);
    thoughtCtx.TrimContext(MaxThoughtCtxLen);
    r := Returned(Some(UserReplied));
  }

  /**
   * `dislike` as it runs: it always raises. On the latest message the latest thought has been
   * rejected by then; nothing is shown.
   */
  method DislikeAsWritten(chatData: ChatData, msgId: int) returns (r: CallResult<Next>)
    modifies chatData
    ensures r == Raised
    ensures chatData.isBotSilent == old(chatData.isBotSilent) && chatData.answererMode == old(chatData.answererMode)
    ensures chatData.latestMsgId == old(chatData.latestMsgId) && chatData.latestAnswerMsgId == old(chatData.latestAnswerMsgId)
    ensures old(chatData.latestMsgId) != Some(msgId) ==> chatData.thoughtCtx == old(chatData.thoughtCtx)
    ensures old(chatData.latestMsgId) == Some(msgId) ==>
      chatData.thoughtCtx == Some(RejectLatest(old(chatData.Thoughts()), msgId).GetOr(old(chatData.Thoughts())))
  {
    if chatData.latestMsgId == Some(msgId) {
      var thoughtCtx := new ThoughtContext(chatData);
      var ok := thoughtCtx.RejectLatestThought(msgId);
      if ok {
        var previous := thoughtCtx.GetLatestConvState();
      }
    }
    r := Raised;
  }

  /**
   * Where the intended `user_thought` leaves an answered thought trimmed and ending in
   * BOT_REPLIED, the handler as written leaves the user's thought last and, once the context is
   * full, one thought too many.
   */
  lemma AnsweredThoughtNotRecorded(ts: seq<Thought>, user: Thought, answer: Answer, botMsgId: int, answeredAt: int)
    requires user.convState == UserReplied
    ensures LatestConvState(ts + [user]) == Some(UserReplied)
    ensures LatestConvState(LastN(ts + Added(user, Some(answer), botMsgId, answeredAt), MaxThoughtCtxLen)) == Some(BotReplied)
    ensures |ts| >= MaxThoughtCtxLen ==>
      |ts + [user]| > MaxThoughtCtxLen && |LastN(ts + Added(user, Some(answer), botMsgId, answeredAt), MaxThoughtCtxLen)| == MaxThoughtCtxLen
  {
    ThoughtRecorded(ts, Added(user, Some(answer), botMsgId, answeredAt));
  }

  /**
   * After `user_thought` the context ends with the thoughts it appended, holds at most 15, and
   * its latest state is the state the handler returns.
   */
  lemma ThoughtRecorded(ts: seq<Thought>, added: seq<Thought>)
    requires 1 <= |added| <= 2
    ensures var r := LastN(ts + added, MaxThoughtCtxLen);
      |r| == Min(|ts| + |added|, 15) && r[|r| - |added|..] == added &&
      LatestConvState(r) == Some(added[|added| - 1].convState)
  {
    var s := ts + added;
    var r := LastN(s, MaxThoughtCtxLen);
    var k, a := Min(MaxThoughtCtxLen, |s|), |added|;
    assert r == s[|s| - k..];
    assert s[|s| - a..] == added;
    SuffixOfSuffix(s, k, a);
    assert r[k - a..] == added;
    assert r[k - 1] == r[k - a..][a - 1];
  }

  /** The last `a` entries of the last `k` entries are the last `a` entries. */
  lemma SuffixOfSuffix<T>(s: seq<T>, k: nat, a: nat)
    requires a <= k <= |s|
    ensures s[|s| - k..][k - a..] == s[|s| - a..]
  {
  }

  /** Disliking the bot's answer right after it was given removes it and leads back to USER_REPLIED. */
  lemma RejectAnswerReturnsToUser(ts: seq<Thought>, user: Thought, answer: Answer, botMsgId: int, answeredAt: int)
    requires user.convState == UserReplied
    ensures var r := LastN(ts + Added(user, Some(answer), botMsgId, answeredAt), MaxThoughtCtxLen);
      RejectLatest(r, botMsgId) == Some(r[..|r| - 1]) && LatestConvState(r[..|r| - 1]) == Some(UserReplied)
  {
    var added := Added(user, Some(answer), botMsgId, answeredAt);
    ThoughtRecorded(ts, added);
    var r := LastN(ts + added, MaxThoughtCtxLen);
    assert r[|r| - 2..] == added;
    assert r[|r| - 1] == added[1];
    assert r[..|r| - 1][|r| - 2] == added[0];
  }
}
