/**
 * The earliest routing of the relay: text-only topics broadcast through the first relay's
 * transmitter, replies back to the author of a copy, and taps on a copy's buttons. The
 * transmitter is not fail-safe, so a copy the platform refuses raises out of the handler: the
 * rest of the broadcast and the notice after it never happen. The force-reply helper and the
 * keyboard helper are collaborators whose code is not part of this model (`OldForceReply` is a
 * logged platform call).
 */
module FourTransparency {
  import opened Wrappers
  import opened Text
  import opened Telegram
  import opened MessageTransmitter
  import opened LegacyTransmitter
  import Transparency

  /** The greeting `/start` answers with. */
  const HelloText: string := "Привет"

  // ---------------------------------------------------------------- the broadcast

  /** Tables, platform, and whether a transmission raised. */
  datatype Run = Run(db: Db, bot: BotState, raised: bool)

  /**
   * Copies of `m` to each of `targets` in turn, until one raises; the sender bot and the
   * receiving bot are the same bot.
   */
  function TransmitEach(db: Db, bot: BotState, scope: Scope, m: Message, botId: int, targets: seq<int>): (r: Run)
    decreases |targets|
  {
    if targets == [] then Run(db, bot, false)
    else
      var w := TransmitEach(db, bot, scope, m, botId, targets[..|targets| - 1]);
      if w.raised then w
      else
        var o := LegacyTransmit(w.db, w.bot, scope, m, botId, targets[|targets| - 1], botId, None);
        Run(o.db, o.bot, o.result.Raised?)
  }

  /** The position of the first refused copy among the first `n`, or `n` when none is refused. */
  function FirstRefusal(script: seq<Option<int>>, n: nat): (f: nat)
    ensures f <= n
    ensures forall k :: 0 <= k < f ==> AnswerAt(script, k).Some?
    ensures f < n ==> AnswerAt(script, f).None?
  {
    if n == 0 then 0
    else
      var f := FirstRefusal(script, n - 1);
      if f < n - 1 then f
      else if AnswerAt(script, n - 1).None? then n - 1
      else n
  }

  /** The `k`-th copy of the broadcast, replying to nothing. */
  function Copies(m: Message, targets: seq<int>, n: nat): (calls: seq<Action>)
    requires n <= |targets|
    ensures |calls| == n
  {
    seq(n, k requires 0 <= k < n => LegacySendAction(m, targets[k], None))
  }

  /** The rows the first `n` copies write, under consecutive fresh ids. */
  function CopyRows(db: Db, bot: BotState, scope: Scope, m: Message, botId: int, targets: seq<int>, n: nat): (rows: seq<Transmission>)
    requires n <= |targets|
    ensures |rows| == n
  {
    seq(n, k requires 0 <= k < n => LegacyRow(scope, m, botId, targets[k], botId, db.nextId + k, AnswerAt(bot.script, k).GetOr(0)))
  }

  /** The broadcast raised iff some copy was refused. */
  lemma {:induction false} TransmitEachRaises(db: Db, bot: BotState, scope: Scope, m: Message, botId: int, targets: seq<int>)
    ensures var r := TransmitEach(db, bot, scope, m, botId, targets);
      (r.raised <==> FirstRefusal(bot.script, |targets|) < |targets|) &&
      (!r.raised ==> r.bot.script == Drop(bot.script, |targets|))
    decreases |targets|
  {
    if targets != [] {
      var n := |targets| - 1;
      TransmitEachRaises(db, bot, scope, m, botId, targets[..n]);
      DropStep(bot.script, n);
    }
  }

  /** The copies and rows of a prefix of the targets are those of the whole list. */
  lemma PrefixCopies(db: Db, bot: BotState, scope: Scope, m: Message, botId: int, targets: seq<int>, n: nat, f: nat)
    requires f <= n <= |targets|
    ensures Copies(m, targets[..n], f) == Copies(m, targets, f)
    ensures CopyRows(db, bot, scope, m, botId, targets[..n], f) == CopyRows(db, bot, scope, m, botId, targets, f)
  {
  }

  /** One more copy extends the copies and, once delivered, the rows by one. */
  lemma SnocCopies(db: Db, bot: BotState, scope: Scope, m: Message, botId: int, targets: seq<int>, n: nat)
    requires n < |targets|
    ensures Copies(m, targets, n + 1) == Copies(m, targets, n) + [LegacySendAction(m, targets[n], None)]
    ensures CopyRows(db, bot, scope, m, botId, targets, n + 1) ==
      CopyRows(db, bot, scope, m, botId, targets, n) + [LegacyRow(scope, m, botId, targets[n], botId, db.nextId + n, AnswerAt(bot.script, n).GetOr(0))]
  {
  }

  /**
   * The copies sent: those before the first refusal and the refused one itself; no later
   * target is tried.
   */
  lemma {:induction false} TransmitEachSends(db: Db, bot: BotState, scope: Scope, m: Message, botId: int, targets: seq<int>)
    ensures var r := TransmitEach(db, bot, scope, m, botId, targets);
      var f := FirstRefusal(bot.script, |targets|);
      r.bot.log == bot.log + Copies(m, targets, if f < |targets| then f + 1 else f)
    decreases |targets|
  {
    if targets != [] {
      var n := |targets| - 1;
      var init := targets[..n];
      TransmitEachSends(db, bot, scope, m, botId, init);
      TransmitEachRaises(db, bot, scope, m, botId, init);
      var f := FirstRefusal(bot.script, n);
      if f < n {
        PrefixCopies(db, bot, scope, m, botId, targets, n, f + 1);
      } else {
        PrefixCopies(db, bot, scope, m, botId, targets, n, n);
        SnocCopies(db, bot, scope, m, botId, targets, n);
      }
    }
  }

  /** The rows written: one per copy before the first refusal, under consecutive fresh ids. */
  lemma {:induction false} TransmitEachWrites(db: Db, bot: BotState, scope: Scope, m: Message, botId: int, targets: seq<int>)
    ensures var r := TransmitEach(db, bot, scope, m, botId, targets);
      var f := FirstRefusal(bot.script, |targets|);
      r.db == db.(transmissions := db.transmissions + CopyRows(db, bot, scope, m, botId, targets, f), nextId := db.nextId + f)
    decreases |targets|
  {
    if targets == [] {
      assert db.transmissions + [] == db.transmissions;
    } else {
      var n := |targets| - 1;
      var init := targets[..n];
      TransmitEachWrites(db, bot, scope, m, botId, init);
      TransmitEachRaises(db, bot, scope, m, botId, init);
      var f := FirstRefusal(bot.script, n);
      var w := TransmitEach(db, bot, scope, m, botId, init);
      assert init == targets[..|targets| - 1];
      if f < n {
        PrefixCopies(db, bot, scope, m, botId, targets, n, f);
      } else {
        DropStep(bot.script, n);
        assert Next(w.bot.script) == AnswerAt(bot.script, n);
        PrefixCopies(db, bot, scope, m, botId, targets, n, n);
        SnocCopies(db, bot, scope, m, botId, targets, n);
        var rows := CopyRows(db, bot, scope, m, botId, targets, n);
        if AnswerAt(bot.script, n).Some? {
          var row := LegacyRow(scope, m, botId, targets[n], botId, db.nextId + n, AnswerAt(bot.script, n).value);
          assert db.transmissions + rows + [row] == db.transmissions + (rows + [row]);
        }
      }
    }
  }

  /** Once a transmission has raised, later targets change nothing. */
  lemma {:induction false} TransmitEachAbort(db: Db, bot: BotState, scope: Scope, m: Message, botId: int, targets: seq<int>, more: seq<int>)
    requires TransmitEach(db, bot, scope, m, botId, targets).raised
    ensures TransmitEach(db, bot, scope, m, botId, targets + more) == TransmitEach(db, bot, scope, m, botId, targets)
    decreases |more|
  {
    if more == [] {
      assert targets + more == targets;
    } else {
      var init := more[..|more| - 1];
      TransmitEachAbort(db, bot, scope, m, botId, targets, init);
      assert (targets + more)[..|targets + more| - 1] == targets + init;
      assert TransmitEach(db, bot, scope, m, botId, targets + init).raised;
    }
  }

  /** The active chats after position `i` are the rest of the sender-filtered list. */
  lemma {:induction false} OthersAppend(chats: seq<int>, more: seq<int>, senderChatId: int)
    ensures Transparency.Others(chats + more, senderChatId) == Transparency.Others(chats, senderChatId) + Transparency.Others(more, senderChatId)
    decreases |more|
  {
    if more == [] {
      assert chats + more == chats;
    } else {
      var init := more[..|more| - 1];
      OthersAppend(chats, init, senderChatId);
      assert (chats + more)[..|chats + more| - 1] == chats + init;
    }
  }

  // ---------------------------------------------------------------- the handlers on values

  /** `start`: the greeting with a keyboard whose button rejects the talk. */
  function StartSpec(bot: BotState, m: Message): BotState {
    Perform(bot, Hello(m.chatId, HelloText, RejectData))
  }

  /**
   * `start_topic`: nothing unless the message has text; then the broadcast to every other
   * active chat, and the "started" notice once the broadcast is over without raising.
   */
  function StartTopicSpec(db: Db, bot: BotState, scope: Scope, m: Message, chats: seq<int>): (r: (Db, BotState))
    ensures !Truthy(m.text) ==> r == (db, bot)
  {
    if !Truthy(m.text) then (db, bot)
    else
      var w := TransmitEach(db, bot, scope, m, m.botId, Transparency.Others(chats, m.chatId));
      if w.raised then (w.db, w.bot)
      else (w.db, Perform(w.bot, Notify(m.chatId, NewTransmissionStarted, None)))
  }

  /**
   * For a text message every other active chat gets a copy, in order, and the sender is told a
   * new transmission started, as long as no copy is refused. A refusal ends the handler right
   * there: no notice, and the copies before it are all the rows written.
   */
  lemma StartTopicOutcome(db: Db, bot: BotState, scope: Scope, m: Message, chats: seq<int>)
    requires Truthy(m.text)
    ensures var r := StartTopicSpec(db, bot, scope, m, chats);
      var others := Transparency.Others(chats, m.chatId);
      var f := FirstRefusal(bot.script, |others|);
      (forall c :: c in others <==> c in chats && c != m.chatId) &&
      r.0 == db.(transmissions := db.transmissions + CopyRows(db, bot, scope, m, m.botId, others, f), nextId := db.nextId + f) &&
      (f == |others| ==> r.1.log == bot.log + Copies(m, others, f) + [Notify(m.chatId, NewTransmissionStarted, None)]) &&
      (f < |others| ==> r.1.log == bot.log + Copies(m, others, f + 1))
  {
    var others := Transparency.Others(chats, m.chatId);
    TransmitEachRaises(db, bot, scope, m, m.botId, others);
    TransmitEachSends(db, bot, scope, m, m.botId, others);
    TransmitEachWrites(db, bot, scope, m, m.botId, others);
  }

  /** `force_reply`: re-parent through the helper, or tell the tapping user the talk is gone. */
  function ForceReplyTapSpec(db: Db, bot: BotState, m: Message): BotState {
    match FindOriginalTransmission(db.transmissions, TripleOf(m))
    case None => Perform(Perform(bot, AnswerCallback(Some(TransmissionNotFound))), ClearKeyboard(m.chatId, m.messageId))
    case Some(row) => Perform(Perform(Perform(bot, AnswerCallback(None)), OldForceReply(TripleOf(m), row.id)), Delete(m.chatId, m.messageId))
  }

  /** `reject`: delete the tapped copy and answer "rejected"; no row is involved. */
  function RejectSpec(bot: BotState, m: Message): BotState {
    Perform(Perform(bot, Delete(m.chatId, m.messageId)), AnswerCallback(Some(TransmissionRejected)))
  }

  /** `transmit_reply`: back to the author of the replied copy, or "not found" and nothing sent. */
  function TransmitReplySpec(db: Db, bot: BotState, scope: Scope, m: Message): (r: (Db, BotState))
    requires m.replyTo.Some?
    ensures FindOriginalTransmission(db.transmissions, Transparency.RepliedTo(m)).None? ==>
      r == (db, Perform(bot, Notify(m.chatId, TransmissionNotFound, Some(m.replyTo.value))))
  {
    match FindOriginalTransmission(db.transmissions, Transparency.RepliedTo(m))
    case None => (db, Perform(bot, Notify(m.chatId, TransmissionNotFound, Some(m.replyTo.value))))
    case Some(row) =>
      var o := LegacyTransmit(db, bot, scope, m, m.botId, row.sender.chatId, m.botId, Some(row.sender.msgId));
      (o.db, o.bot)
  }

  /**
   * The relay closes the loop: once a broadcast copy of `m` reached chat `c` as a message no
   * row had recorded before, a reply to that copy in `c` goes back, and only there, to the chat
   * `m` came from as a reply to `m` itself, and writes its own row.
   */
  lemma ReplyToCopyReachesAuthor(db: Db, bot: BotState, scope: Scope, m: Message, c: int, reply: Message, later: BotState)
    requires Next(bot.script).Some?
    requires forall k :: 0 <= k < |db.transmissions| ==> db.transmissions[k].receiver != Triple(Next(bot.script).value, c, m.botId)
    requires reply.replyTo == Some(Next(bot.script).value) && reply.chatId == c && reply.botId == m.botId
    ensures var o := LegacyTransmit(db, bot, scope, m, m.botId, c, m.botId, None);
      var r := TransmitReplySpec(o.db, later, scope, reply);
      r.1.log == later.log + [LegacySendAction(reply, m.chatId, Some(m.messageId))] &&
      (Next(later.script).Some? ==> |r.0.transmissions| == |o.db.transmissions| + 1)
  {
    LegacyCopyIsFound(db, bot, scope, m, m.botId, c, m.botId, None);
  }

  // ---------------------------------------------------------------- the handlers

  /** `SwiperTransparency.start`. */
  method Start(bot: Bot, m: Message)
    modifies bot
    ensures bot.State() == StartSpec(old(bot.State()), m)
  {
    bot.Do(Hello(m.chatId, HelloText, RejectData));
  }

  /** `SwiperTransparency.start_topic`; `chats` is what `find_all_active_swiper_chat_ids` returns. */
  method StartTopic(store: Store, bot: Bot, scope: Scope, m: Message, chats: seq<int>)
    requires m.botId == bot.id
    modifies store, bot
    ensures (store.State(), bot.State()) == StartTopicSpec(old(store.State()), old(bot.State()), scope, m, chats)
  {
    if !Truthy(m.text) {
      return;
    }
    ghost var db0, b0 := store.State(), bot.State();
    for i := 0 to |chats|
      invariant Run(store.State(), bot.State(), false) == TransmitEach(db0, b0, scope, m, bot.id, Transparency.Others(chats[..i], m.chatId))
    {
      var c := chats[i];
      assert chats[..i + 1][..i] == chats[..i];
      ghost var others := Transparency.Others(chats[..i], m.chatId);
      IntToStringInjective(c, m.chatId);
      if IntToString(c) != IntToString(m.chatId) {
        assert Transparency.Others(chats[..i + 1], m.chatId) == others + [c];
        assert (others + [c])[..|others|] == others;
        var result := LegacyTransmitMessage(store, bot, scope, m, bot.id, c, None);
        if result.Raised? {
          assert chats == chats[..i + 1] + chats[i + 1..];
          OthersAppend(chats[..i + 1], chats[i + 1..], m.chatId);
          TransmitEachAbort(db0, b0, scope, m, bot.id, others + [c], Transparency.Others(chats[i + 1..], m.chatId));
          return;
        }
      } else {
        assert Transparency.Others(chats[..i + 1], m.chatId) == others;
      }
    }
    assert chats[..|chats|] == chats;
    bot.Do(Notify(m.chatId, NewTransmissionStarted, None));
  }

  /** `SwiperTransparency.force_reply`; `m` is the tapped copy. */
  method ForceReplyTap(store: Store, bot: Bot, m: Message)
    modifies bot
    ensures bot.State() == ForceReplyTapSpec(store.State(), old(bot.State()), m)
  {
    var row := FindOriginalTransmission(store.transmissions, TripleOf(m));
    if row.None? {
      bot.Do(AnswerCallback(Some(TransmissionNotFound)));
      bot.Do(ClearKeyboard(m.chatId, m.messageId));
      return;
    }
    bot.Do(AnswerCallback(None));
    bot.Do(OldForceReply(TripleOf(m), row.value.id));
    bot.Do(Delete(m.chatId, m.messageId));
  }

  /** `SwiperTransparency.reject`; it has no access to the transmission table at all. */
  method Reject(bot: Bot, m: Message)
    modifies bot
    ensures bot.State() == RejectSpec(old(bot.State()), m)
  {
    bot.Do(Delete(m.chatId, m.messageId));
    bot.Do(AnswerCallback(Some(TransmissionRejected)));
  }

  /** `SwiperTransparency.transmit_reply`; `m` is the reply. */
  method TransmitReply(store: Store, bot: Bot, scope: Scope, m: Message)
    requires m.replyTo.Some? && m.botId == bot.id
    modifies store, bot
    ensures (store.State(), bot.State()) == TransmitReplySpec(old(store.State()), old(bot.State()), scope, m)
  {
    var row := FindOriginalTransmission(store.transmissions, Triple(m.replyTo.value, m.chatId, m.botId));
    if row.None? {
      bot.Do(Notify(m.chatId, TransmissionNotFound, Some(m.replyTo.value)));
      return;
    }
    var result := LegacyTransmitMessage(store, bot, scope, m, bot.id, row.value.sender.chatId, Some(row.value.sender.msgId));
  }

  // ---------------------------------------------------------------- the dispatcher

  /** The handler an update reaches in the earliest routing. */
  datatype Route = Stopped | StartRoute | ReplyRoute | TopicRoute | TapRoute | RejectRoute | Unhandled

  /**
   * `configure_dispatcher`: the guard stops unauthorized message updates; then `/start`, replies
   * and every other message, in that order. There is no edit handler, so an edited message is
   * routed like a new one. Button taps bypass the guard; the reply and reject buttons are handled.
   */
  function RouteOf(u: Transparency.Update, authorized: bool): (r: Route)
    ensures u.CallbackUpdate? ==> ((r == TapRoute <==> u.data == ReplyData) && (r == RejectRoute <==> u.data == RejectData) &&
      (r != TapRoute && r != RejectRoute ==> r == Unhandled))
    ensures u.MessageUpdate? ==> (r == Stopped <==> !authorized) && r != Unhandled && r != TapRoute && r != RejectRoute
    ensures r == StartRoute <==> u.MessageUpdate? && authorized && u.command == Some(Transparency.StartCommand)
    ensures r == ReplyRoute ==> u.MessageUpdate? && u.m.replyTo.Some?
    ensures r == TopicRoute ==> u.MessageUpdate? && u.m.replyTo.None?
  {
    match u
    case CallbackUpdate(_, data) =>
      if data == ReplyData then TapRoute else if data == RejectData then RejectRoute else Unhandled
    case MessageUpdate(m, _, command) =>
      if !authorized then Stopped
      else if command == Some(Transparency.StartCommand) then StartRoute
      else if m.replyTo.Some? then ReplyRoute
      else TopicRoute
  }

  /** Editing a message does not change where it is routed. */
  lemma EditedRoutesAlike(u: Transparency.Update, authorized: bool)
    requires u.MessageUpdate?
    ensures RouteOf(u, authorized) == RouteOf(u.(edited := !u.edited), authorized)
  {
  }

  /** The whole update on values. */
  function HandleSpec(db: Db, bot: BotState, scope: Scope, u: Transparency.Update, authorized: bool, chats: seq<int>): (r: (Db, BotState))
    ensures u.MessageUpdate? && !authorized ==> r == (db, bot)
    ensures RouteOf(u, authorized) != ReplyRoute && RouteOf(u, authorized) != TopicRoute ==> r.0 == db
  {
    match RouteOf(u, authorized)
    case Stopped => (db, bot)
    case Unhandled => (db, bot)
    case StartRoute => (db, StartSpec(bot, u.m))
    case ReplyRoute => TransmitReplySpec(db, bot, scope, u.m)
    case TopicRoute => StartTopicSpec(db, bot, scope, u.m, chats)
    case TapRoute => (db, ForceReplyTapSpec(db, bot, u.m))
    case RejectRoute => (db, RejectSpec(bot, u.m))
  }

  /** The dispatcher of the earliest routing. */
  method Handle(store: Store, bot: Bot, scope: Scope, u: Transparency.Update, authorized: bool, chats: seq<int>)
    requires u.m.botId == bot.id
    modifies store, bot
    ensures (store.State(), bot.State()) == HandleSpec(old(store.State()), old(bot.State()), scope, u, authorized, chats)
  {
    var route := RouteOf(u, authorized);
    match route
    case Stopped =>
    case Unhandled =>
    case StartRoute => Start(bot, u.m);
    case ReplyRoute => TransmitReply(store, bot, scope, u.m);
    case TopicRoute => StartTopic(store, bot, scope, u.m, chats);
    case TapRoute => ForceReplyTap(store, bot, u.m);
    case RejectRoute => Reject(bot, u.m);
  }
}
