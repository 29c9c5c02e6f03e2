/**
 * The older routing of the relay. Its transmitter, editor, force-reply and keyboard helpers
 * are collaborators whose code is not part of this model: each is a platform call of the
 * oracle (`OldTransmit`, `OldEdit` answer with a message id or `None`, whose truthiness is what
 * the handler tests; `OldForceReply` is logged only) and none of them is modelled as writing
 * rows. The handlers read the transmission table through the two lookups and never write it.
 */
module LegacyTransparency {
  import opened Wrappers
  import opened Text
  import opened Telegram
  import opened MessageTransmitter
  import Transparency

  /** The greeting `/start` answers with. */
  const HelloText: string := "Здоров"

  // ---------------------------------------------------------------- a run of oracle calls

  /** Delivering calls made one after another, each taking the next answer. */
  function DeliverAll(bot: BotState, calls: seq<Action>): (r: BotState)
    ensures r.log == bot.log + calls
    ensures r.script == Drop(bot.script, |calls|)
    decreases |calls|
  {
    if calls == [] then bot
    else
      var init := DeliverAll(bot, calls[..|calls| - 1]);
      DropStep(bot.script, |calls| - 1);
      assert calls == calls[..|calls| - 1] + [calls[|calls| - 1]];
      Deliver(init, calls[|calls| - 1]).0
  }

  /** One more call of a run takes the answer at its position. */
  lemma DeliverAllSnoc(bot: BotState, calls: seq<Action>, a: Action)
    ensures DeliverAll(bot, calls + [a]) == Deliver(DeliverAll(bot, calls), a).0
    ensures Deliver(DeliverAll(bot, calls), a).1 == AnswerAt(bot.script, |calls|)
  {
    assert (calls + [a])[..|calls|] == calls;
    DropStep(bot.script, |calls|);
  }

  /** Some of the first `n` answers is a message: the OR the broadcasts compute. */
  predicate AnyDelivered(script: seq<Option<int>>, n: nat) {
    exists k :: 0 <= k < n && AnswerAt(script, k).Some?
  }

  /** Every one of the first `n` answers is a message: the AND the edit fan-out computes. */
  predicate AllDelivered(script: seq<Option<int>>, n: nat) {
    forall k :: 0 <= k < n ==> AnswerAt(script, k).Some?
  }

  lemma DeliveredStep(script: seq<Option<int>>, n: nat)
    ensures AnyDelivered(script, n + 1) <==> AnyDelivered(script, n) || AnswerAt(script, n).Some?
    ensures AllDelivered(script, n + 1) <==> AllDelivered(script, n) && AnswerAt(script, n).Some?
  {
    if AnyDelivered(script, n + 1) && !AnswerAt(script, n).Some? {
      var k :| 0 <= k < n + 1 && AnswerAt(script, k).Some?;
      assert k < n;
    }
  }

  // ---------------------------------------------------------------- the calls of the fan-outs

  /** The broadcast of `start_topic`: one black-heart copy to each chat, replying to nothing. */
  function Broadcast(chats: seq<int>): (calls: seq<Action>)
    ensures |calls| == |chats|
  {
    seq(|chats|, k requires 0 <= k < |chats| => OldTransmit(chats[k], None, false))
  }

  /** `edit_message`'s edits: each copy with its stored heart, or the default when it has none. */
  function CopyEdits(rows: seq<Transmission>, redHeartDefault: bool): (calls: seq<Action>)
    ensures |calls| == |rows|
  {
    seq(|rows|, k requires 0 <= k < |rows| => OldEdit(rows[k].receiver.chatId, rows[k].receiver.msgId, rows[k].redHeart.GetOr(redHeartDefault)))
  }

  /** The miss branch of `transmit_reply`: one copy to each receiver, replying to its copy. */
  function CopyReplies(rows: seq<Transmission>, redHeart: bool): (calls: seq<Action>)
    ensures |calls| == |rows|
  {
    seq(|rows|, k requires 0 <= k < |rows| => OldTransmit(rows[k].receiver.chatId, Some(rows[k].receiver.msgId), redHeart))
  }

  // ---------------------------------------------------------------- the handlers on values

  /** `start`: the greeting with a keyboard that stops the talk. */
  function StartSpec(bot: BotState, m: Message): BotState {
    Perform(bot, Hello(m.chatId, HelloText, StopData))
  }

  /** `start_topic`: broadcast to every other active chat (no topic is created), then the notice. */
  function StartTopicSpec(bot: BotState, m: Message, chats: seq<int>): BotState {
    var calls := Broadcast(Transparency.Others(chats, m.chatId));
    Perform(DeliverAll(bot, calls), Transparency.StartNotice(m, AnyDelivered(bot.script, |calls|)))
  }

  /**
   * `start_topic` tries every active chat but the sender's, each once, in order, with a black
   * heart, and then reports "new topic started" iff some copy was delivered, "not transmitted"
   * otherwise. The transmission table plays no part.
   */
  lemma StartTopicBroadcasts(bot: BotState, m: Message, chats: seq<int>)
    ensures var b := StartTopicSpec(bot, m, chats);
      var others := Transparency.Others(chats, m.chatId);
      (forall c :: OldTransmit(c, None, false) in Broadcast(others) <==> c in chats && c != m.chatId) &&
      b.script == Drop(bot.script, |others|) &&
      b.log == bot.log + Broadcast(others) + [Transparency.StartNotice(m, exists k :: 0 <= k < |others| && AnswerAt(bot.script, k).Some?)]
  {
    var others := Transparency.Others(chats, m.chatId);
    var calls := Broadcast(others);
    forall c | OldTransmit(c, None, false) in calls ensures c in chats && c != m.chatId {
      var k :| 0 <= k < |calls| && calls[k] == OldTransmit(c, None, false);
      assert others[k] in others;
    }
    forall c | c in chats && c != m.chatId ensures OldTransmit(c, None, false) in calls {
      var k :| 0 <= k < |others| && others[k] == c;
      assert calls[k] == OldTransmit(c, None, false);
    }
  }

  /** `edit_message`: every copy of the edited message is edited, failure reported iff one fails. */
  function EditMessageSpec(db: Db, bot: BotState, m: Message): BotState {
    var rows := FindTransmissionsBySenderMsg(db.transmissions, TripleOf(m));
    if rows == [] then Perform(bot, Notify(m.chatId, TalkNotFound, Some(m.messageId)))
    else
      var calls := CopyEdits(rows, |rows| < 2);
      var b := DeliverAll(bot, calls);
      if AllDelivered(bot.script, |calls|) then b
      else Perform(b, Notify(m.chatId, FailedToEditAtReceiver, Some(m.messageId)))
  }

  /** With no copies of the edited message on record, the sender hears "talk not found" and nothing is edited. */
  lemma EditMessageNotFound(db: Db, bot: BotState, m: Message)
    requires forall k :: 0 <= k < |db.transmissions| ==> db.transmissions[k].sender != TripleOf(m)
    ensures EditMessageSpec(db, bot, m) == bot.(log := bot.log + [Notify(m.chatId, TalkNotFound, Some(m.messageId))])
  {
  }

  /**
   * Otherwise each copy is edited once, in table order, with its stored heart or, failing that,
   * red when it is the only copy; "failed to edit" follows iff some edit produced nothing.
   */
  lemma EditMessageEditsEveryCopy(db: Db, bot: BotState, m: Message)
    requires FindTransmissionsBySenderMsg(db.transmissions, TripleOf(m)) != []
    ensures var rows := FindTransmissionsBySenderMsg(db.transmissions, TripleOf(m));
      var b := EditMessageSpec(db, bot, m);
      (forall k :: 0 <= k < |rows| ==> rows[k] in db.transmissions && rows[k].sender == TripleOf(m)) &&
      b.script == Drop(bot.script, |rows|) &&
      b.log == bot.log + CopyEdits(rows, |rows| < 2) +
        (if forall k :: 0 <= k < |rows| ==> AnswerAt(bot.script, k).Some? then [] else [Notify(m.chatId, FailedToEditAtReceiver, Some(m.messageId))])
  {
    var rows := FindTransmissionsBySenderMsg(db.transmissions, TripleOf(m));
    forall k | 0 <= k < |rows| ensures rows[k] in db.transmissions && rows[k].sender == TripleOf(m) {
      assert rows[k] in rows;
    }
    var b := DeliverAll(bot, CopyEdits(rows, |rows| < 2));
    if AllDelivered(bot.script, |rows|) {
      assert b.log + [] == b.log;
    }
  }

  /** The tap on a copy's reply button: re-parent through `force_reply`, or "talk not found". */
  function ForceReplyTapSpec(db: Db, bot: BotState, m: Message): BotState {
    match FindOriginalTransmission(db.transmissions, TripleOf(m))
    case None => Perform(Perform(bot, AnswerCallback(Some(TalkNotFound))), ClearKeyboard(m.chatId, m.messageId))
    case Some(row) => Perform(Perform(Perform(bot, AnswerCallback(None)), OldForceReply(TripleOf(m), row.id)), Delete(m.chatId, m.messageId))
  }

  /**
   * Tapping a copy nobody has on record answers the tap with "talk not found" and clears the
   * keyboard; tapping a recorded copy answers silently, hands its row to `force_reply` and then
   * deletes the tapped copy. No answer of the oracle is taken.
   */
  lemma ForceReplyTapOutcome(db: Db, bot: BotState, m: Message)
    ensures var b := ForceReplyTapSpec(db, bot, m);
      b.script == bot.script &&
      ((forall k :: 0 <= k < |db.transmissions| ==> db.transmissions[k].receiver != TripleOf(m)) ==>
        b.log == bot.log + [AnswerCallback(Some(TalkNotFound)), ClearKeyboard(m.chatId, m.messageId)]) &&
      (forall k :: (0 <= k < |db.transmissions| && db.transmissions[k].receiver == TripleOf(m) &&
          (forall j :: 0 <= j < k ==> db.transmissions[j].receiver != TripleOf(m))) ==>
        b.log == bot.log + [AnswerCallback(None), OldForceReply(TripleOf(m), db.transmissions[k].id), Delete(m.chatId, m.messageId)])
  {
    var found := FindOriginalTransmission(db.transmissions, TripleOf(m));
    if found.Some? {
      var i :| 0 <= i < |db.transmissions| && db.transmissions[i] == found.value &&
        forall j :: 0 <= j < i ==> db.transmissions[j].receiver != TripleOf(m);
      forall k | 0 <= k < |db.transmissions| && db.transmissions[k].receiver == TripleOf(m) &&
          (forall j :: 0 <= j < k ==> db.transmissions[j].receiver != TripleOf(m))
        ensures db.transmissions[k] == found.value
      {
      }
    }
  }

  /** `stop`: delete the tapped message and answer "talk stopped"; no row is involved. */
  function StopSpec(bot: BotState, m: Message): BotState {
    Perform(Perform(bot, Delete(m.chatId, m.messageId)), AnswerCallback(Some(TalkStopped)))
  }

  /** `transmit_reply`: back to the author on a receiver-copy hit, else out to the sender's copies. */
  function TransmitReplySpec(db: Db, bot: BotState, m: Message): BotState
    requires m.replyTo.Some?
  {
    var replied := Transparency.RepliedTo(m);
    var b1 := Perform(bot, ClearKeyboard(m.chatId, m.replyTo.value));
    match FindOriginalTransmission(db.transmissions, replied)
    case Some(row) =>
      var (b2, t) := Deliver(b1, OldTransmit(row.sender.chatId, Some(row.sender.msgId), true));
      if t.Some? then b2 else Perform(b2, Notify(m.chatId, MessageNotTransmitted, Some(m.messageId)))
    case None =>
      var rows := FindTransmissionsBySenderMsg(db.transmissions, replied);
      if rows == [] then Perform(b1, Notify(m.chatId, TalkNotFound, Some(m.replyTo.value)))
      else
        var calls := CopyReplies(rows, |rows| < 2);
        var b2 := DeliverAll(b1, calls);
        if AnyDelivered(b1.script, |calls|) then b2
        else Perform(b2, Notify(m.chatId, MessageNotTransmitted, Some(m.messageId)))
  }

  /**
   * A reply to a copy on record goes back once, red-hearted, to the chat the original came from,
   * replying to the original; "not transmitted" follows iff that produced nothing. The copies
   * of the replied message itself are not consulted.
   */
  lemma TransmitReplyHit(db: Db, bot: BotState, m: Message, row: Transmission)
    requires m.replyTo.Some?
    requires FindOriginalTransmission(db.transmissions, Transparency.RepliedTo(m)) == Some(row)
    ensures var b := TransmitReplySpec(db, bot, m);
      var back := OldTransmit(row.sender.chatId, Some(row.sender.msgId), true);
      b.script == Rest(bot.script) &&
      (Next(bot.script).Some? ==> b.log == bot.log + [ClearKeyboard(m.chatId, m.replyTo.value), back]) &&
      (Next(bot.script).None? ==> b.log == bot.log + [ClearKeyboard(m.chatId, m.replyTo.value), back, Notify(m.chatId, MessageNotTransmitted, Some(m.messageId))])
  {
  }

  /**
   * A reply to a message nobody received as a copy falls back to that message's own copies: none
   * means "talk not found"; otherwise each copy's receiver gets one copy replying to it, with a
   * red heart iff there is a single copy, and "not transmitted" follows iff none arrived.
   */
  lemma TransmitReplyMiss(db: Db, bot: BotState, m: Message)
    requires m.replyTo.Some?
    requires forall k :: 0 <= k < |db.transmissions| ==> db.transmissions[k].receiver != Transparency.RepliedTo(m)
    ensures var b := TransmitReplySpec(db, bot, m);
      var rows := FindTransmissionsBySenderMsg(db.transmissions, Transparency.RepliedTo(m));
      var clear := ClearKeyboard(m.chatId, m.replyTo.value);
      (forall k :: 0 <= k < |rows| ==> rows[k] in db.transmissions && rows[k].sender == Transparency.RepliedTo(m)) &&
      (rows == [] ==> b == bot.(log := bot.log + [clear, Notify(m.chatId, TalkNotFound, Some(m.replyTo.value))])) &&
      (rows != [] ==> (b.script == Drop(bot.script, |rows|) &&
        b.log == bot.log + [clear] + CopyReplies(rows, |rows| < 2) +
          (if exists k :: 0 <= k < |rows| && AnswerAt(bot.script, k).Some? then [] else [Notify(m.chatId, MessageNotTransmitted, Some(m.messageId))])))
  {
    var rows := FindTransmissionsBySenderMsg(db.transmissions, Transparency.RepliedTo(m));
    forall k | 0 <= k < |rows| ensures rows[k] in db.transmissions && rows[k].sender == Transparency.RepliedTo(m) {
      assert rows[k] in rows;
    }
    var clear := ClearKeyboard(m.chatId, m.replyTo.value);
    if rows == [] {
      assert bot.log + [clear] + [Notify(m.chatId, TalkNotFound, Some(m.replyTo.value))] == bot.log + [clear, Notify(m.chatId, TalkNotFound, Some(m.replyTo.value))];
    } else {
      var b1 := Perform(bot, clear);
      var b := DeliverAll(b1, CopyReplies(rows, |rows| < 2));
      if AnyDelivered(b1.script, |rows|) {
        assert b.log + [] == b.log;
      }
    }
  }

  // ---------------------------------------------------------------- the handlers

  /** `SwiperTransparency.start`. */
  method Start(bot: Bot, m: Message)
    modifies bot
    ensures bot.State() == StartSpec(old(bot.State()), m)
  {
    bot.Do(Hello(m.chatId, HelloText, StopData));
  }

  /** `SwiperTransparency.start_topic`; `chats` is what `find_all_active_swiper_chat_ids` returns. */
  method StartTopic(bot: Bot, m: Message, chats: seq<int>)
    modifies bot
    ensures bot.State() == StartTopicSpec(old(bot.State()), m, chats)
  {
    ghost var b0 := bot.State();
    var transmitted := false;
    for i := 0 to |chats|
      invariant bot.State() == DeliverAll(b0, Broadcast(Transparency.Others(chats[..i], m.chatId)))
      invariant transmitted <==> AnyDelivered(b0.script, |Transparency.Others(chats[..i], m.chatId)|)
    {
      var c := chats[i];
      assert chats[..i + 1][..i] == chats[..i];
      ghost var others := Transparency.Others(chats[..i], m.chatId);
      IntToStringInjective(c, m.chatId);
      if IntToString(c) != IntToString(m.chatId) {
        assert Transparency.Others(chats[..i + 1], m.chatId) == others + [c];
        assert Broadcast(others + [c]) == Broadcast(others) + [OldTransmit(c, None, false)];
        DeliverAllSnoc(b0, Broadcast(others), OldTransmit(c, None, false));
        DeliveredStep(b0.script, |others|);
        var t := bot.Call(OldTransmit(c, None, false));
        transmitted := t.Some? || transmitted;
      } else {
        assert Transparency.Others(chats[..i + 1], m.chatId) == others;
      }
    }
    assert chats[..|chats|] == chats;
    bot.Do(Transparency.StartNotice(m, transmitted));
  }

  /** The loop of `edit_message`: every copy is edited in order; `edited` says whether every edit went through. */
  method EditEach(bot: Bot, rows: seq<Transmission>, redHeartDefault: bool) returns (edited: bool)
    modifies bot
    ensures bot.State() == DeliverAll(old(bot.State()), CopyEdits(rows, redHeartDefault))
    ensures edited <==> AllDelivered(old(bot.State()).script, |rows|)
  {
    ghost var b0 := bot.State();
    edited := true;
    for i := 0 to |rows|
      invariant bot.State() == DeliverAll(b0, CopyEdits(rows, redHeartDefault)[..i])
      invariant edited <==> AllDelivered(b0.script, i)
    {
      var row := rows[i];
      var call := OldEdit(row.receiver.chatId, row.receiver.msgId, row.redHeart.GetOr(redHeartDefault));
      assert CopyEdits(rows, redHeartDefault)[..i + 1] == CopyEdits(rows, redHeartDefault)[..i] + [call];
      DeliverAllSnoc(b0, CopyEdits(rows, redHeartDefault)[..i], call);
      DeliveredStep(b0.script, i);
      var e := bot.Call(call);
      edited := e.Some? && edited;
    }
    assert CopyEdits(rows, redHeartDefault)[..|rows|] == CopyEdits(rows, redHeartDefault);
  }

  /** `SwiperTransparency.edit_message`; `m` is the edited message. */
  method EditMessage(store: Store, bot: Bot, m: Message)
    modifies bot
    ensures bot.State() == EditMessageSpec(store.State(), old(bot.State()), m)
  {
    var rows := FindTransmissionsBySenderMsg(store.transmissions, TripleOf(m));
    if rows == [] {
      bot.Do(Notify(m.chatId, TalkNotFound, Some(m.messageId)));
      return;
    }
    var edited := EditEach(bot, rows, |rows| < 2);
    if !edited {
      bot.Do(Notify(m.chatId, FailedToEditAtReceiver, Some(m.messageId)));
    }
  }

  /** `SwiperTransparency.force_reply`; `m` is the tapped copy. */
  method ForceReplyTap(store: Store, bot: Bot, m: Message)
    modifies bot
    ensures bot.State() == ForceReplyTapSpec(store.State(), old(bot.State()), m)
  {
    var row := FindOriginalTransmission(store.transmissions, TripleOf(m));
    if row.None? {
      bot.Do(AnswerCallback(Some(TalkNotFound)));
      bot.Do(ClearKeyboard(m.chatId, m.messageId));
      return;
    }
    bot.Do(AnswerCallback(None));
    bot.Do(OldForceReply(TripleOf(m), row.value.id));
    bot.Do(Delete(m.chatId, m.messageId));
  }

  /** `SwiperTransparency.stop`; it has no access to the transmission table at all. */
  method Stop(bot: Bot, m: Message)
    modifies bot
    ensures bot.State() == StopSpec(old(bot.State()), m)
  {
    bot.Do(Delete(m.chatId, m.messageId));
    bot.Do(AnswerCallback(Some(TalkStopped)));
  }

  /** The loop of `transmit_reply` over the copies: each gets the reply in order; `transmitted` says whether any went through. */
  method ReplyEach(bot: Bot, rows: seq<Transmission>, redHeart: bool) returns (transmitted: bool)
    modifies bot
    ensures bot.State() == DeliverAll(old(bot.State()), CopyReplies(rows, redHeart))
    ensures transmitted <==> AnyDelivered(old(bot.State()).script, |rows|)
  {
    ghost var b0 := bot.State();
    transmitted := false;
    for i := 0 to |rows|
      invariant bot.State() == DeliverAll(b0, CopyReplies(rows, redHeart)[..i])
      invariant transmitted <==> AnyDelivered(b0.script, i)
    {
      var call := OldTransmit(rows[i].receiver.chatId, Some(rows[i].receiver.msgId), redHeart);
      assert CopyReplies(rows, redHeart)[..i + 1] == CopyReplies(rows, redHeart)[..i] + [call];
      DeliverAllSnoc(b0, CopyReplies(rows, redHeart)[..i], call);
      DeliveredStep(b0.script, i);
      var t := bot.Call(call);
      transmitted := t.Some? || transmitted;
    }
    assert CopyReplies(rows, redHeart)[..|rows|] == CopyReplies(rows, redHeart);
  }

  /** `SwiperTransparency.transmit_reply`; `m` is the reply. */
  method TransmitReply(store: Store, bot: Bot, m: Message)
    requires m.replyTo.Some?
    modifies bot
    ensures bot.State() == TransmitReplySpec(store.State(), old(bot.State()), m)
  {
    bot.Do(ClearKeyboard(m.chatId, m.replyTo.value));
    var replied := Triple(m.replyTo.value, m.chatId, m.botId);
    var row := FindOriginalTransmission(store.transmissions, replied);
    if row.Some? {
      var t := bot.Call(OldTransmit(row.value.sender.chatId, Some(row.value.sender.msgId), true));
      if t.None? {
        bot.Do(Notify(m.chatId, MessageNotTransmitted, Some(m.messageId)));
      }
      return;
    }
    var rows := FindTransmissionsBySenderMsg(store.transmissions, replied);
    if rows == [] {
      bot.Do(Notify(m.chatId, TalkNotFound, Some(m.replyTo.value)));
      return;
    }
    var transmitted := ReplyEach(bot, rows, |rows| < 2);
    if !transmitted {
      bot.Do(Notify(m.chatId, MessageNotTransmitted, Some(m.messageId)));
    }
  }

  // ---------------------------------------------------------------- the dispatcher

  /** The handler an update reaches in the older routing. */
  datatype Route = Stopped | StartRoute | EditRoute | ReplyRoute | TopicRoute | TapRoute | StopRoute | Unhandled

  /**
   * `configure_dispatcher`: the guard stops unauthorized message updates; then `/start`, edits,
   * replies and every other message, in that order (a `/help` or `/about` is an ordinary
   * message here); button taps bypass the guard, and only the reply and stop buttons are handled.
   */
  function RouteOf(u: Transparency.Update, authorized: bool): (r: Route)
    ensures u.CallbackUpdate? ==> ((r == TapRoute <==> u.data == ReplyData) && (r == StopRoute <==> u.data == StopData) &&
      (r != TapRoute && r != StopRoute ==> r == Unhandled))
    ensures u.MessageUpdate? ==> (r == Stopped <==> !authorized) && r != Unhandled && r != TapRoute && r != StopRoute
    ensures r == StartRoute <==> u.MessageUpdate? && authorized && u.command == Some(Transparency.StartCommand)
    ensures r == EditRoute ==> u.MessageUpdate? && u.edited
    ensures r == ReplyRoute ==> u.MessageUpdate? && !u.edited && u.m.replyTo.Some?
    ensures r == TopicRoute ==> u.MessageUpdate? && !u.edited && u.m.replyTo.None?
  {
    match u
    case CallbackUpdate(_, data) =>
      if data == ReplyData then TapRoute else if data == StopData then StopRoute else Unhandled
    case MessageUpdate(m, edited, command) =>
      if !authorized then Stopped
      else if command == Some(Transparency.StartCommand) then StartRoute
      else if edited then EditRoute
      else if m.replyTo.Some? then ReplyRoute
      else TopicRoute
  }

  /** The whole update on values; the table is never written by this routing. */
  function HandleSpec(db: Db, bot: BotState, u: Transparency.Update, authorized: bool, chats: seq<int>): (r: BotState)
    ensures u.MessageUpdate? && !authorized ==> r == bot
    ensures RouteOf(u, authorized) == Unhandled ==> r == bot
  {
    match RouteOf(u, authorized)
    case Stopped => bot
    case Unhandled => bot
    case StartRoute => StartSpec(bot, u.m)
    case EditRoute => EditMessageSpec(db, bot, u.m)
    case ReplyRoute => TransmitReplySpec(db, bot, u.m)
    case TopicRoute => StartTopicSpec(bot, u.m, chats)
    case TapRoute => ForceReplyTapSpec(db, bot, u.m)
    case StopRoute => StopSpec(bot, u.m)
  }

  /** The dispatcher of the older routing. */
  method Handle(store: Store, bot: Bot, u: Transparency.Update, authorized: bool, chats: seq<int>)
    modifies bot
    ensures bot.State() == HandleSpec(store.State(), old(bot.State()), u, authorized, chats)
  {
    var route := RouteOf(u, authorized);
    match route
    case Stopped =>
    case Unhandled =>
    case StartRoute => Start(bot, u.m);
    case EditRoute => EditMessage(store, bot, u.m);
    case ReplyRoute => TransmitReply(store, bot, u.m);
    case TopicRoute => StartTopic(bot, u.m, chats);
    case TapRoute => ForceReplyTap(store, bot, u.m);
    case StopRoute => Stop(bot, u.m);
  }
}
