/**
 * The relay's routing handlers: a new message starts a topic and is broadcast to every other
 * active chat, an edit is propagated to every copy, a tap on a copy's reply button re-parents
 * that copy onto a force-reply prompt, and a reply travels back to the author of the message
 * it answers, or out to every copy of the replier's own message.
 */
module Transparency {
  import opened Wrappers
  import opened Text
  import opened Telegram
  import opened MessageTransmitter

  /** Whether `_ptb_transmit` has anything to send for the message. */
  predicate Sendable(m: Message) {
    FirstKind(m).Some?
  }

  /** Whether `edit_transmission` has anything to edit for the message. */
  predicate Editable(scope: Scope, m: Message) {
    scope.swiperUsername.Some? && (Truthy(m.text) || Truthy(m.caption))
  }

  // ---------------------------------------------------------------- the OR fan-out

  /**
   * A loop of `transmitted = transmit_message(...) or transmitted` over the requests: every
   * request is attempted, in order, whatever the earlier ones returned.
   */
  function TransmitAll(w: Outcome, scope: Scope, m: Message, senderBotId: int, receiverBotId: int, reqs: seq<Req>): Outcome
    decreases |reqs|
  {
    if reqs == [] then w
    else
      var prev := TransmitAll(w, scope, m, senderBotId, receiverBotId, reqs[..|reqs| - 1]);
      var o := Transmit(prev.db, prev.bot, scope, m, senderBotId, receiverBotId, reqs[|reqs| - 1]);
      Outcome(o.db, o.bot, o.ok || prev.ok)
  }

  /** The fan-out over one more request is the fan-out so far followed by that request's transmission. */
  lemma TransmitAllSnoc(w: Outcome, scope: Scope, m: Message, senderBotId: int, receiverBotId: int, reqs: seq<Req>, req: Req)
    ensures var prev := TransmitAll(w, scope, m, senderBotId, receiverBotId, reqs);
      var o := Transmit(prev.db, prev.bot, scope, m, senderBotId, receiverBotId, req);
      TransmitAll(w, scope, m, senderBotId, receiverBotId, reqs + [req]) == Outcome(o.db, o.bot, o.ok || prev.ok)
  {
    assert (reqs + [req])[..|reqs|] == reqs;
  }

  /** The delivering calls the fan-out makes, one per request when there is content. */
  function AttemptsFor(scope: Scope, m: Message, reqs: seq<Req>): (r: seq<Action>)
    ensures Sendable(m) ==> |r| == |reqs|
    ensures !Sendable(m) ==> r == []
    decreases |reqs|
  {
    if reqs == [] then []
    else
      AttemptsFor(scope, m, reqs[..|reqs| - 1]) +
      (match TransmitAction(scope, m, reqs[|reqs| - 1]) case Some(a) => [a] case None => [])
  }

  /** Each attempt is its request's relaying call and goes to the request's chat. */
  lemma {:induction false} AttemptsForTargets(scope: Scope, m: Message, reqs: seq<Req>)
    requires Sendable(m)
    ensures forall k :: 0 <= k < |reqs| ==> AttemptsFor(scope, m, reqs)[k] == TransmitAction(scope, m, reqs[k]).value
    ensures forall k :: 0 <= k < |reqs| ==> Recipient(AttemptsFor(scope, m, reqs)[k]) == Some(reqs[k].receiverChatId)
    decreases |reqs|
  {
    if reqs != [] {
      var init := reqs[..|reqs| - 1];
      AttemptsForTargets(scope, m, init);
      forall k | 0 <= k < |reqs|
        ensures AttemptsFor(scope, m, reqs)[k] == TransmitAction(scope, m, reqs[k]).value
        ensures Recipient(AttemptsFor(scope, m, reqs)[k]) == Some(reqs[k].receiverChatId)
      {
        if k < |init| { assert reqs[k] == init[k]; }
        TransmitCalls(Db([], [], [], [], 0), BotState([], []), scope, m, 0, 0, reqs[k]);
      }
    }
  }

  /** One step of the OR fan-out, as the lemmas below use it. */
  lemma TransmitAllStep(w: Outcome, scope: Scope, m: Message, senderBotId: int, receiverBotId: int, reqs: seq<Req>)
    requires reqs != []
    ensures var prev := TransmitAll(w, scope, m, senderBotId, receiverBotId, reqs[..|reqs| - 1]);
      var r := TransmitAll(w, scope, m, senderBotId, receiverBotId, reqs);
      var o := Transmit(prev.db, prev.bot, scope, m, senderBotId, receiverBotId, reqs[|reqs| - 1]);
      var a := TransmitAction(scope, m, reqs[|reqs| - 1]);
      r == Outcome(o.db, o.bot, o.ok || prev.ok) &&
      (a.Some? <==> Sendable(m)) &&
      r.bot.script == (if a.Some? then Rest(prev.bot.script) else prev.bot.script) &&
      (o.ok <==> a.Some? && Next(prev.bot.script).Some?) &&
      Deliveries(r.bot.log) == Deliveries(prev.bot.log) + (if a.Some? then [a.value] else []) &&
      |prev.bot.log| <= |r.bot.log| && r.bot.log[..|prev.bot.log|] == prev.bot.log
  {
    var prev := TransmitAll(w, scope, m, senderBotId, receiverBotId, reqs[..|reqs| - 1]);
    TransmitCalls(prev.db, prev.bot, scope, m, senderBotId, receiverBotId, reqs[|reqs| - 1]);
  }

  /** The fan-out takes one answer per request when there is content, none otherwise. */
  lemma {:induction false} TransmitAllScript(w: Outcome, scope: Scope, m: Message, senderBotId: int, receiverBotId: int, reqs: seq<Req>)
    ensures TransmitAll(w, scope, m, senderBotId, receiverBotId, reqs).bot.script == Drop(w.bot.script, if Sendable(m) then |reqs| else 0)
    decreases |reqs|
  {
    if reqs == [] {
      assert Drop(w.bot.script, 0) == w.bot.script;
    } else {
      TransmitAllScript(w, scope, m, senderBotId, receiverBotId, reqs[..|reqs| - 1]);
      TransmitAllStep(w, scope, m, senderBotId, receiverBotId, reqs);
      DropStep(w.bot.script, |reqs| - 1);
    }
  }

  /**
   * The fan-out reports true iff it started true or one of the answers its attempts took was a
   * message: the OR does not stop at the first success.
   */
  lemma {:induction false} TransmitAllOk(w: Outcome, scope: Scope, m: Message, senderBotId: int, receiverBotId: int, reqs: seq<Req>)
    ensures TransmitAll(w, scope, m, senderBotId, receiverBotId, reqs).ok <==>
      w.ok || (Sendable(m) && exists k :: 0 <= k < |reqs| && AnswerAt(w.bot.script, k).Some?)
    decreases |reqs|
  {
    if reqs != [] {
      var n := |reqs|;
      TransmitAllOk(w, scope, m, senderBotId, receiverBotId, reqs[..n - 1]);
      TransmitAllStep(w, scope, m, senderBotId, receiverBotId, reqs);
      TransmitAllScript(w, scope, m, senderBotId, receiverBotId, reqs[..n - 1]);
      if Sendable(m) {
        DropStep(w.bot.script, n - 1);
        assert (exists k :: 0 <= k < n && AnswerAt(w.bot.script, k).Some?) <==>
          (exists k :: 0 <= k < n - 1 && AnswerAt(w.bot.script, k).Some?) || AnswerAt(w.bot.script, n - 1).Some?;
      }
    }
  }

  /** The answers the fan-out takes, and what it reports. */
  lemma TransmitAllAnswers(w: Outcome, scope: Scope, m: Message, senderBotId: int, receiverBotId: int, reqs: seq<Req>)
    ensures var r := TransmitAll(w, scope, m, senderBotId, receiverBotId, reqs);
      var n := if Sendable(m) then |reqs| else 0;
      r.bot.script == Drop(w.bot.script, n) &&
      (r.ok <==> w.ok || exists k :: 0 <= k < n && AnswerAt(w.bot.script, k).Some?)
  {
    TransmitAllScript(w, scope, m, senderBotId, receiverBotId, reqs);
    TransmitAllOk(w, scope, m, senderBotId, receiverBotId, reqs);
  }

  /** Earlier log entries stay as they were. */
  lemma {:induction false} TransmitAllKeepsLog(w: Outcome, scope: Scope, m: Message, senderBotId: int, receiverBotId: int, reqs: seq<Req>)
    ensures var r := TransmitAll(w, scope, m, senderBotId, receiverBotId, reqs);
      |w.bot.log| <= |r.bot.log| && r.bot.log[..|w.bot.log|] == w.bot.log
    decreases |reqs|
  {
    if reqs == [] {
      assert w.bot.log[..|w.bot.log|] == w.bot.log;
    } else {
      var init := reqs[..|reqs| - 1];
      TransmitAllKeepsLog(w, scope, m, senderBotId, receiverBotId, init);
      TransmitAllStep(w, scope, m, senderBotId, receiverBotId, reqs);
      var prev := TransmitAll(w, scope, m, senderBotId, receiverBotId, init);
      var r := TransmitAll(w, scope, m, senderBotId, receiverBotId, reqs);
      PrefixOfPrefix(w.bot.log, prev.bot.log, r.bot.log);
    }
  }

  /** The relaying calls among everything the fan-out logs are exactly its attempts, in order. */
  lemma {:induction false} TransmitAllDeliveryCalls(w: Outcome, scope: Scope, m: Message, senderBotId: int, receiverBotId: int, reqs: seq<Req>)
    ensures Deliveries(TransmitAll(w, scope, m, senderBotId, receiverBotId, reqs).bot.log) == Deliveries(w.bot.log) + AttemptsFor(scope, m, reqs)
    decreases |reqs|
  {
    if reqs == [] {
      assert Deliveries(w.bot.log) + [] == Deliveries(w.bot.log);
    } else {
      var init := reqs[..|reqs| - 1];
      TransmitAllDeliveryCalls(w, scope, m, senderBotId, receiverBotId, init);
      TransmitAllStep(w, scope, m, senderBotId, receiverBotId, reqs);
      var prev := TransmitAll(w, scope, m, senderBotId, receiverBotId, init);
      var r := TransmitAll(w, scope, m, senderBotId, receiverBotId, reqs);
      var a := TransmitAction(scope, m, reqs[|reqs| - 1]);
      var added := if a.Some? then [a.value] else [];
      var d, attempts := Deliveries(w.bot.log), AttemptsFor(scope, m, init);
      assert AttemptsFor(scope, m, reqs) == attempts + added;
      assert Deliveries(r.bot.log) == (d + attempts) + added;
      assert (d + attempts) + added == d + (attempts + added);
    }
  }

  /**
   * The relaying calls among everything the fan-out logs are exactly its attempts, in order;
   * earlier log entries stay as they were.
   */
  lemma TransmitAllDeliveries(w: Outcome, scope: Scope, m: Message, senderBotId: int, receiverBotId: int, reqs: seq<Req>)
    ensures var r := TransmitAll(w, scope, m, senderBotId, receiverBotId, reqs);
      Deliveries(r.bot.log) == Deliveries(w.bot.log) + AttemptsFor(scope, m, reqs) &&
      |w.bot.log| <= |r.bot.log| && r.bot.log[..|w.bot.log|] == w.bot.log
  {
    TransmitAllKeepsLog(w, scope, m, senderBotId, receiverBotId, reqs);
    TransmitAllDeliveryCalls(w, scope, m, senderBotId, receiverBotId, reqs);
  }

  /** A prefix of a prefix is a prefix. */
  lemma PrefixOfPrefix<T>(a: seq<T>, b: seq<T>, c: seq<T>)
    requires |a| <= |b| && b[..|a|] == a
    requires |b| <= |c| && c[..|b|] == b
    ensures |a| <= |c| && c[..|a|] == a
  {
    assert c[..|a|] == c[..|b|][..|a|];
  }

  /** The row a delivered request gives rise to carries that request's fields. */
  predicate RowFor(t: Transmission, m: Message, senderBotId: int, receiverBotId: int, req: Req) {
    t.sender == Triple(m.messageId, m.chatId, senderBotId) &&
    t.receiver.chatId == req.receiverChatId && t.receiver.botId == receiverBotId &&
    t.topicId == req.topicId && t.allogroomingId == req.allogroomingId &&
    t.replyToMsgId == req.replyToMsgId && t.redHeart == Some(req.redHeart) &&
    t.replyToTransmissionId == req.replyToTransmissionId && t.originalMsgTransId.None?
  }

  /** The row is the row of one of the requests. */
  predicate FromRequest(t: Transmission, m: Message, senderBotId: int, receiverBotId: int, reqs: seq<Req>) {
    exists k :: 0 <= k < |reqs| && RowFor(t, m, senderBotId, receiverBotId, reqs[k])
  }

  /** One step of the OR fan-out on the transmission table. */
  lemma TransmitAllRowStep(w: Outcome, scope: Scope, m: Message, senderBotId: int, receiverBotId: int, reqs: seq<Req>)
    requires reqs != []
    ensures var prev := TransmitAll(w, scope, m, senderBotId, receiverBotId, reqs[..|reqs| - 1]);
      var r := TransmitAll(w, scope, m, senderBotId, receiverBotId, reqs);
      var pt := prev.db.transmissions;
      var delivered := Sendable(m) && Next(prev.bot.script).Some?;
      |r.db.transmissions| == |pt| + (if delivered then 1 else 0) && r.db.transmissions[..|pt|] == pt &&
      (delivered ==> RowFor(r.db.transmissions[|pt|], m, senderBotId, receiverBotId, reqs[|reqs| - 1]))
  {
    var prev := TransmitAll(w, scope, m, senderBotId, receiverBotId, reqs[..|reqs| - 1]);
    var r := TransmitAll(w, scope, m, senderBotId, receiverBotId, reqs);
    TransmitCalls(prev.db, prev.bot, scope, m, senderBotId, receiverBotId, reqs[|reqs| - 1]);
    assert r.db.transmissions[..|prev.db.transmissions|] == prev.db.transmissions;
  }

  /** The fan-out writes only transmissions and keeps the store valid. */
  lemma {:induction false} TransmitAllValid(w: Outcome, scope: Scope, m: Message, senderBotId: int, receiverBotId: int, reqs: seq<Req>)
    requires Valid(w.db)
    ensures var r := TransmitAll(w, scope, m, senderBotId, receiverBotId, reqs);
      Valid(r.db) && r.db.topics == w.db.topics && r.db.subtopics == w.db.subtopics && r.db.allogroomings == w.db.allogroomings
    decreases |reqs|
  {
    if reqs != [] {
      var init := reqs[..|reqs| - 1];
      TransmitAllValid(w, scope, m, senderBotId, receiverBotId, init);
      var prev := TransmitAll(w, scope, m, senderBotId, receiverBotId, init);
      TransmitWritesOneRow(prev.db, prev.bot, scope, m, senderBotId, receiverBotId, reqs[|reqs| - 1]);
    }
  }

  /** The fan-out only appends rows, one per answer that was a message. */
  lemma {:induction false} TransmitAllAppends(w: Outcome, scope: Scope, m: Message, senderBotId: int, receiverBotId: int, reqs: seq<Req>)
    ensures var r := TransmitAll(w, scope, m, senderBotId, receiverBotId, reqs);
      var before := w.db.transmissions;
      |r.db.transmissions| == |before| + CountDelivered(w.bot.script, if Sendable(m) then |reqs| else 0) &&
      r.db.transmissions[..|before|] == before
    decreases |reqs|
  {
    var before := w.db.transmissions;
    if reqs == [] {
      assert before[..|before|] == before;
    } else {
      var n := |reqs|;
      var init := reqs[..n - 1];
      TransmitAllAppends(w, scope, m, senderBotId, receiverBotId, init);
      TransmitAllScript(w, scope, m, senderBotId, receiverBotId, init);
      TransmitAllRowStep(w, scope, m, senderBotId, receiverBotId, reqs);
      if Sendable(m) {
        DropStep(w.bot.script, n - 1);
      }
      var pt := TransmitAll(w, scope, m, senderBotId, receiverBotId, init).db.transmissions;
      var rt := TransmitAll(w, scope, m, senderBotId, receiverBotId, reqs).db.transmissions;
      assert rt[..|before|] == pt[..|before|];
    }
  }

  /** Every row the fan-out appends is the row of one of its requests. */
  lemma {:induction false} TransmitAllRowsFor(w: Outcome, scope: Scope, m: Message, senderBotId: int, receiverBotId: int, reqs: seq<Req>)
    ensures var r := TransmitAll(w, scope, m, senderBotId, receiverBotId, reqs);
      forall i :: |w.db.transmissions| <= i < |r.db.transmissions| ==>
        FromRequest(r.db.transmissions[i], m, senderBotId, receiverBotId, reqs)
    decreases |reqs|
  {
    if reqs != [] {
      var n := |reqs|;
      var init := reqs[..n - 1];
      TransmitAllRowsFor(w, scope, m, senderBotId, receiverBotId, init);
      TransmitAllAppends(w, scope, m, senderBotId, receiverBotId, init);
      TransmitAllRowStep(w, scope, m, senderBotId, receiverBotId, reqs);
      var pt := TransmitAll(w, scope, m, senderBotId, receiverBotId, init).db.transmissions;
      var rt := TransmitAll(w, scope, m, senderBotId, receiverBotId, reqs).db.transmissions;
      RowsForSnoc(|w.db.transmissions|, pt, rt, m, senderBotId, receiverBotId, init, reqs);
    }
  }

  /** Rows that each come from an earlier request, and at most one more from the last, each come from one of the requests. */
  lemma RowsForSnoc(start: nat, pt: seq<Transmission>, rt: seq<Transmission>, m: Message, senderBotId: int, receiverBotId: int,
                    init: seq<Req>, reqs: seq<Req>)
    requires reqs != [] && init == reqs[..|reqs| - 1]
    requires start <= |pt| <= |rt| <= |pt| + 1 && rt[..|pt|] == pt
    requires forall i :: start <= i < |pt| ==> FromRequest(pt[i], m, senderBotId, receiverBotId, init)
    requires |rt| == |pt| + 1 ==> RowFor(rt[|pt|], m, senderBotId, receiverBotId, reqs[|reqs| - 1])
    ensures forall i :: start <= i < |rt| ==> FromRequest(rt[i], m, senderBotId, receiverBotId, reqs)
  {
    forall i | start <= i < |rt|
      ensures FromRequest(rt[i], m, senderBotId, receiverBotId, reqs)
    {
      if i < |pt| {
        assert rt[i] == pt[i];
        var k :| 0 <= k < |init| && RowFor(pt[i], m, senderBotId, receiverBotId, init[k]);
        assert reqs[k] == init[k];
      } else {
        assert RowFor(rt[i], m, senderBotId, receiverBotId, reqs[|reqs| - 1]);
      }
    }
  }

  /**
   * The fan-out adds one row per delivered copy and no other: the table grows by the number of
   * answers that were a message, the old rows stay, every new row is the row of one of the
   * requests, the other tables are untouched and the store stays valid.
   */
  lemma TransmitAllRows(w: Outcome, scope: Scope, m: Message, senderBotId: int, receiverBotId: int, reqs: seq<Req>)
    requires Valid(w.db)
    ensures var r := TransmitAll(w, scope, m, senderBotId, receiverBotId, reqs);
      var before := w.db.transmissions;
      Valid(r.db) && r.db.topics == w.db.topics && r.db.subtopics == w.db.subtopics && r.db.allogroomings == w.db.allogroomings &&
      |r.db.transmissions| == |before| + CountDelivered(w.bot.script, if Sendable(m) then |reqs| else 0) &&
      r.db.transmissions[..|before|] == before &&
      forall i :: |before| <= i < |r.db.transmissions| ==>
        FromRequest(r.db.transmissions[i], m, senderBotId, receiverBotId, reqs)
  {
    TransmitAllValid(w, scope, m, senderBotId, receiverBotId, reqs);
    TransmitAllAppends(w, scope, m, senderBotId, receiverBotId, reqs);
    TransmitAllRowsFor(w, scope, m, senderBotId, receiverBotId, reqs);
  }

  // ---------------------------------------------------------------- start_topic

  /** The active chats other than the sender's, in order: the intended recipients. */
  function Others(chats: seq<int>, senderChatId: int): (r: seq<int>)
    ensures forall c :: c in r <==> c in chats && c != senderChatId
    decreases |chats|
  {
    if chats == [] then []
    else
      var init := Others(chats[..|chats| - 1], senderChatId);
      var c := chats[|chats| - 1];
      assert chats == chats[..|chats| - 1] + [c];
      if c != senderChatId then init + [c] else init
  }

  /** The broadcast's request for one recipient: black heart, under the new topic. */
  function StartReq(chatId: int, topicId: Id, silent: bool): Req {
    Req(chatId, false, Some(topicId), silent, None, None, None, None)
  }

  /** The loop of `start_topic`: one request per active chat whose id differs as a string. */
  function StartReqs(chats: seq<int>, senderChatId: int, topicId: Id, silent: bool): seq<Req>
    decreases |chats|
  {
    if chats == [] then []
    else
      var c := chats[|chats| - 1];
      StartReqs(chats[..|chats| - 1], senderChatId, topicId, silent) +
      (if IntToString(c) != IntToString(senderChatId) then [StartReq(c, topicId, silent)] else [])
  }

  /** Comparing the decimal strings skips exactly the sender's chat: the requests go to `Others`. */
  lemma {:induction false} StartReqsTargetOthers(chats: seq<int>, senderChatId: int, topicId: Id, silent: bool)
    ensures var reqs := StartReqs(chats, senderChatId, topicId, silent);
      var others := Others(chats, senderChatId);
      |reqs| == |others| && forall k :: 0 <= k < |reqs| ==> reqs[k] == StartReq(others[k], topicId, silent)
    decreases |chats|
  {
    if chats != [] {
      var c := chats[|chats| - 1];
      StartReqsTargetOthers(chats[..|chats| - 1], senderChatId, topicId, silent);
      IntToStringInjective(c, senderChatId);
    }
  }

  /** The notice the sender gets once the loop is over. */
  function StartNotice(m: Message, transmitted: bool): Action {
    if transmitted then Notify(m.chatId, NewTopicStarted, None)
    else Notify(m.chatId, MessageNotTransmitted, Some(m.messageId))
  }

  /** `start_topic` on values: one topic, the broadcast, then the notice. */
  function StartTopicSpec(db: Db, bot: BotState, scope: Scope, m: Message, botId: int, chats: seq<int>): (Db, BotState) {
    var (db1, topicId) := AddTopic(db, Triple(m.messageId, m.chatId, botId), scope.telegramUpdateS3Key);
    var o := TransmitAll(Outcome(db1, bot, false), scope, m, botId, botId, StartReqs(chats, m.chatId, topicId, scope.blackHeartsAreSilent));
    (o.db, Perform(o.bot, StartNotice(m, o.ok)))
  }

  /**
   * `start_topic` writes exactly one topic, under a fresh id, whatever the deliveries do; every
   * transmission it writes belongs to that topic, carries a black heart and goes to a chat
   * other than the sender's; and the store stays valid.
   */
  lemma StartTopicWritesOneTopic(db: Db, bot: BotState, scope: Scope, m: Message, botId: int, chats: seq<int>)
    requires Valid(db)
    ensures var r := StartTopicSpec(db, bot, scope, m, botId, chats).0;
      Valid(r) && r.topics == db.topics + [Topic(db.nextId, Triple(m.messageId, m.chatId, botId), scope.telegramUpdateS3Key)] &&
      r.subtopics == db.subtopics && r.allogroomings == db.allogroomings &&
      |db.transmissions| <= |r.transmissions| && r.transmissions[..|db.transmissions|] == db.transmissions &&
      forall i :: |db.transmissions| <= i < |r.transmissions| ==>
        r.transmissions[i].topicId == Some(db.nextId) && r.transmissions[i].redHeart == Some(false) &&
        r.transmissions[i].receiver.chatId in chats && r.transmissions[i].receiver.chatId != m.chatId
  {
    var (db1, topicId) := AddTopic(db, Triple(m.messageId, m.chatId, botId), scope.telegramUpdateS3Key);
    var reqs := StartReqs(chats, m.chatId, topicId, scope.blackHeartsAreSilent);
    var w := Outcome(db1, bot, false);
    TransmitAllRows(w, scope, m, botId, botId, reqs);
    StartReqsTargetOthers(chats, m.chatId, topicId, scope.blackHeartsAreSilent);
    var o := TransmitAll(w, scope, m, botId, botId, reqs);
    assert o.db == StartTopicSpec(db, bot, scope, m, botId, chats).0;
    forall i | |db.transmissions| <= i < |o.db.transmissions|
      ensures o.db.transmissions[i].topicId == Some(db.nextId) && o.db.transmissions[i].redHeart == Some(false) &&
        o.db.transmissions[i].receiver.chatId in chats && o.db.transmissions[i].receiver.chatId != m.chatId
    {
      var k :| 0 <= k < |reqs| && RowFor(o.db.transmissions[i], m, botId, botId, reqs[k]);
      assert Others(chats, m.chatId)[k] in Others(chats, m.chatId);
    }
  }

  /**
   * The broadcast's attempts, when there is content: one per chat other than the sender's, in
   * order, each to that chat, with a black heart, under the topic, with the configured silence.
   */
  lemma {:induction false} StartAttemptsTargets(scope: Scope, m: Message, chats: seq<int>, senderChatId: int, topicId: Id, silent: bool)
    ensures var others := Others(chats, senderChatId);
      var attempts := AttemptsFor(scope, m, StartReqs(chats, senderChatId, topicId, silent));
      var n := if Sendable(m) then |others| else 0;
      |attempts| == n &&
      forall k :: 0 <= k < n ==>
        attempts[k] == TransmitAction(scope, m, StartReq(others[k], topicId, silent)).value &&
        Recipient(attempts[k]) == Some(others[k])
  {
    var reqs := StartReqs(chats, senderChatId, topicId, silent);
    StartReqsTargetOthers(chats, senderChatId, topicId, silent);
    if Sendable(m) {
      AttemptsForTargets(scope, m, reqs);
    }
  }

  /**
   * `start_topic` attempts exactly one delivery, in order, to each active chat other than the
   * sender's (black heart, the new topic, the configured silence), when there is content.
   */
  lemma StartTopicAttemptsEveryOther(db: Db, bot: BotState, scope: Scope, m: Message, botId: int, chats: seq<int>)
    ensures var b := StartTopicSpec(db, bot, scope, m, botId, chats).1;
      var others := Others(chats, m.chatId);
      var attempts := AttemptsFor(scope, m, StartReqs(chats, m.chatId, db.nextId, scope.blackHeartsAreSilent));
      var n := if Sendable(m) then |others| else 0;
      Deliveries(b.log) == Deliveries(bot.log) + attempts &&
      |attempts| == n &&
      (forall k :: 0 <= k < n ==>
        attempts[k] == TransmitAction(scope, m, StartReq(others[k], db.nextId, scope.blackHeartsAreSilent)).value &&
        Recipient(attempts[k]) == Some(others[k]))
  {
    var (db1, topicId) := AddTopic(db, Triple(m.messageId, m.chatId, botId), scope.telegramUpdateS3Key);
    var reqs := StartReqs(chats, m.chatId, topicId, scope.blackHeartsAreSilent);
    var w := Outcome(db1, bot, false);
    TransmitAllDeliveries(w, scope, m, botId, botId, reqs);
    var o := TransmitAll(w, scope, m, botId, botId, reqs);
    DeliveriesSnoc(o.bot.log, StartNotice(m, o.ok));
    StartAttemptsTargets(scope, m, chats, m.chatId, topicId, scope.blackHeartsAreSilent);
  }

  /**
   * `start_topic` takes one answer per attempt, keeps the earlier log, and ends with "new topic
   * started" iff one of the attempts produced a message, "not transmitted" otherwise.
   */
  lemma StartTopicNotice(db: Db, bot: BotState, scope: Scope, m: Message, botId: int, chats: seq<int>)
    ensures var b := StartTopicSpec(db, bot, scope, m, botId, chats).1;
      var n := if Sendable(m) then |Others(chats, m.chatId)| else 0;
      |bot.log| < |b.log| && b.log[..|bot.log|] == bot.log &&
      b.script == Drop(bot.script, n) &&
      b.log[|b.log| - 1] == StartNotice(m, exists k :: 0 <= k < n && AnswerAt(bot.script, k).Some?)
  {
    var (db1, topicId) := AddTopic(db, Triple(m.messageId, m.chatId, botId), scope.telegramUpdateS3Key);
    var reqs := StartReqs(chats, m.chatId, topicId, scope.blackHeartsAreSilent);
    var w := Outcome(db1, bot, false);
    TransmitAllAnswers(w, scope, m, botId, botId, reqs);
    TransmitAllDeliveries(w, scope, m, botId, botId, reqs);
    StartReqsTargetOthers(chats, m.chatId, topicId, scope.blackHeartsAreSilent);
    var o := TransmitAll(w, scope, m, botId, botId, reqs);
    var b := Perform(o.bot, StartNotice(m, o.ok));
    assert b.log[..|bot.log|] == o.bot.log[..|bot.log|];
  }

  // ---------------------------------------------------------------- the AND fan-out

  /** A loop of `edited = edit_transmission(...) and edited` over the copies found. */
  function EditAll(bot: BotState, scope: Scope, m: Message, rows: seq<Transmission>, redHeartDefault: bool): (BotState, bool)
    decreases |rows|
  {
    if rows == [] then (bot, true)
    else
      var prev := EditAll(bot, scope, m, rows[..|rows| - 1], redHeartDefault);
      var row := rows[|rows| - 1];
      var e := Edit(prev.0, scope, m, row.receiver.msgId, row.receiver.chatId, row.redHeart.GetOr(redHeartDefault));
      (e.0, e.1 && prev.1)
  }

  /** The fan-out over one more copy is the fan-out so far followed by that copy's edit. */
  lemma EditAllSnoc(bot: BotState, scope: Scope, m: Message, rows: seq<Transmission>, row: Transmission, redHeartDefault: bool)
    ensures var prev := EditAll(bot, scope, m, rows, redHeartDefault);
      var e := Edit(prev.0, scope, m, row.receiver.msgId, row.receiver.chatId, row.redHeart.GetOr(redHeartDefault));
      EditAll(bot, scope, m, rows + [row], redHeartDefault) == (e.0, e.1 && prev.1)
  {
    assert (rows + [row])[..|rows|] == rows;
  }

  /** The edit of one copy: its stored heart, or the default on rows without one. */
  function EditOf(scope: Scope, m: Message, row: Transmission, redHeartDefault: bool): Option<Action> {
    EditAction(scope, m, row.receiver.msgId, row.receiver.chatId, row.redHeart.GetOr(redHeartDefault))
  }

  /** The edits the fan-out makes, one per copy when there is something to edit. */
  function EditsFor(scope: Scope, m: Message, rows: seq<Transmission>, redHeartDefault: bool): (r: seq<Action>)
    ensures Editable(scope, m) ==> |r| == |rows|
    ensures !Editable(scope, m) ==> r == []
    decreases |rows|
  {
    if rows == [] then []
    else
      EditsFor(scope, m, rows[..|rows| - 1], redHeartDefault) +
      (match EditOf(scope, m, rows[|rows| - 1], redHeartDefault) case Some(a) => [a] case None => [])
  }

  /** Each edit is the edit of its copy, in the order of the copies. */
  lemma {:induction false} EditsForTargets(scope: Scope, m: Message, rows: seq<Transmission>, redHeartDefault: bool)
    requires Editable(scope, m)
    ensures forall k :: 0 <= k < |rows| ==> EditsFor(scope, m, rows, redHeartDefault)[k] == EditOf(scope, m, rows[k], redHeartDefault).value
    decreases |rows|
  {
    if rows != [] {
      var init := rows[..|rows| - 1];
      EditsForTargets(scope, m, init, redHeartDefault);
      forall k | 0 <= k < |init| ensures rows[k] == init[k] { }
    }
  }

  /** One step of the edit fan-out, as the lemmas below use it. */
  lemma EditAllStep(bot: BotState, scope: Scope, m: Message, rows: seq<Transmission>, redHeartDefault: bool)
    requires rows != []
    ensures var prev := EditAll(bot, scope, m, rows[..|rows| - 1], redHeartDefault);
      var r := EditAll(bot, scope, m, rows, redHeartDefault);
      var a := EditOf(scope, m, rows[|rows| - 1], redHeartDefault);
      (a.Some? <==> Editable(scope, m)) &&
      r.0.log == prev.0.log + (if a.Some? then [a.value] else []) &&
      r.0.script == (if a.Some? then Rest(prev.0.script) else prev.0.script) &&
      (r.1 <==> prev.1 && a.Some? && Next(prev.0.script).Some?)
  {
  }

  /** The edit fan-out takes one answer per copy when there is something to edit, none otherwise. */
  lemma {:induction false} EditAllScript(bot: BotState, scope: Scope, m: Message, rows: seq<Transmission>, redHeartDefault: bool)
    ensures EditAll(bot, scope, m, rows, redHeartDefault).0.script == Drop(bot.script, if Editable(scope, m) then |rows| else 0)
    decreases |rows|
  {
    if rows == [] {
      assert Drop(bot.script, 0) == bot.script;
    } else {
      EditAllScript(bot, scope, m, rows[..|rows| - 1], redHeartDefault);
      EditAllStep(bot, scope, m, rows, redHeartDefault);
      DropStep(bot.script, |rows| - 1);
    }
  }

  /** The edit fan-out logs exactly its edits, in the order of the copies. */
  lemma {:induction false} EditAllLog(bot: BotState, scope: Scope, m: Message, rows: seq<Transmission>, redHeartDefault: bool)
    ensures EditAll(bot, scope, m, rows, redHeartDefault).0.log == bot.log + EditsFor(scope, m, rows, redHeartDefault)
    decreases |rows|
  {
    if rows == [] {
      assert bot.log + [] == bot.log;
    } else {
      var init := rows[..|rows| - 1];
      EditAllLog(bot, scope, m, init, redHeartDefault);
      EditAllStep(bot, scope, m, rows, redHeartDefault);
    }
  }

  /** The edit fan-out reports true iff there was nothing to edit or every edit produced a message. */
  lemma {:induction false} EditAllOk(bot: BotState, scope: Scope, m: Message, rows: seq<Transmission>, redHeartDefault: bool)
    ensures EditAll(bot, scope, m, rows, redHeartDefault).1 <==>
      rows == [] || (Editable(scope, m) && forall k :: 0 <= k < |rows| ==> AnswerAt(bot.script, k).Some?)
    decreases |rows|
  {
    if rows != [] {
      var n := |rows|;
      var init := rows[..n - 1];
      EditAllOk(bot, scope, m, init, redHeartDefault);
      EditAllStep(bot, scope, m, rows, redHeartDefault);
      EditAllScript(bot, scope, m, init, redHeartDefault);
      if Editable(scope, m) {
        DropStep(bot.script, n - 1);
        assert (forall k :: 0 <= k < n ==> AnswerAt(bot.script, k).Some?) <==>
          (forall k :: 0 <= k < n - 1 ==> AnswerAt(bot.script, k).Some?) && AnswerAt(bot.script, n - 1).Some?;
      }
    }
  }

  /**
   * The edit fan-out logs one edit per copy when there is text or a caption (and a username),
   * nothing otherwise, takes one answer per edit, and reports true iff every copy's edit
   * produced a message: the AND does not stop at the first failure.
   */
  lemma EditAllCalls(bot: BotState, scope: Scope, m: Message, rows: seq<Transmission>, redHeartDefault: bool)
    ensures var r := EditAll(bot, scope, m, rows, redHeartDefault);
      r.0.log == bot.log + EditsFor(scope, m, rows, redHeartDefault) &&
      r.0.script == Drop(bot.script, if Editable(scope, m) then |rows| else 0) &&
      (r.1 <==> rows == [] || (Editable(scope, m) && forall k :: 0 <= k < |rows| ==> AnswerAt(bot.script, k).Some?))
  {
    EditAllLog(bot, scope, m, rows, redHeartDefault);
    EditAllScript(bot, scope, m, rows, redHeartDefault);
    EditAllOk(bot, scope, m, rows, redHeartDefault);
  }

  // ---------------------------------------------------------------- edit_message

  /** `edit_message` on values; an edit writes no row. */
  function EditMessageSpec(db: Db, bot: BotState, scope: Scope, m: Message): BotState {
    var rows := FindTransmissionsBySenderMsg(db.transmissions, TripleOf(m));
    if rows == [] then Perform(bot, Notify(m.chatId, TalkNotFound, Some(m.messageId)))
    else
      var r := EditAll(bot, scope, m, rows, |rows| < 2);
      if r.1 then r.0 else Perform(r.0, Notify(m.chatId, FailedToEditAtReceiver, Some(m.messageId)))
  }

  /**
   * Without copies of the edited message, `edit_message` only answers "talk not found".
   * Otherwise it edits each copy in order, with its stored heart or the default "fewer than two
   * copies", and then reports "failed to edit" iff one of the edits, or all of them for want of
   * text and caption, produced nothing.
   */
  lemma EditMessageReportsFailure(db: Db, bot: BotState, scope: Scope, m: Message)
    ensures var rows := FindTransmissionsBySenderMsg(db.transmissions, TripleOf(m));
      var b := EditMessageSpec(db, bot, scope, m);
      var failed := !Editable(scope, m) || exists k :: 0 <= k < |rows| && AnswerAt(bot.script, k).None?;
      (rows == [] ==> b == Perform(bot, Notify(m.chatId, TalkNotFound, Some(m.messageId)))) &&
      (rows != [] ==> (b.log == bot.log + EditsFor(scope, m, rows, |rows| < 2) +
        (if failed then [Notify(m.chatId, FailedToEditAtReceiver, Some(m.messageId))] else [])))
  {
    var rows := FindTransmissionsBySenderMsg(db.transmissions, TripleOf(m));
    if rows != [] {
      EditAllCalls(bot, scope, m, rows, |rows| < 2);
    }
  }

  // ---------------------------------------------------------------- force_reply (the tap)

  /** The tap on a copy's reply button, on values; `m` is the tapped copy. */
  function ForceReplyTapSpec(db: Db, bot: BotState, scope: Scope, m: Message): (Db, BotState) {
    var b1 := Perform(bot, AnswerCallback(None));
    match FindOriginalTransmission(db.transmissions, TripleOf(m))
    case None =>
      (db, Perform(Perform(b1, Notify(m.chatId, TalkNotFound, Some(m.messageId))), ClearKeyboard(m.chatId, m.messageId)))
    case Some(row) =>
      var o := ForceReplySpec(db, b1, m, row, scope.blackHeartsAreSilent);
      if o.ok then (o.db, Perform(o.bot, Delete(m.chatId, m.messageId)))
      else (o.db, Perform(o.bot, ReportError(m.chatId)))
  }

  /**
   * A tap on a message no row knows answers "talk not found", clears the keyboard and writes
   * nothing. A tap on a known copy re-parents that copy onto the prompt and deletes the tapped
   * message; when the prompt cannot be produced the handler fails before writing anything, and
   * the tapped message stays. This lemma is about what the tap logs: the callback answer
   * always comes first.
   */
  lemma ForceReplyTapLog(db: Db, bot: BotState, scope: Scope, m: Message)
    ensures var (d, b) := ForceReplyTapSpec(db, bot, scope, m);
      var found := FindOriginalTransmission(db.transmissions, TripleOf(m));
      var prompted := ForceReplyAction(m, scope.blackHeartsAreSilent).Some? && AnswerAt(bot.script, 0).Some?;
      |bot.log| < |b.log| && b.log[..|bot.log| + 1] == bot.log + [AnswerCallback(None)] &&
      (found.None? ==> b.log == bot.log + [AnswerCallback(None), Notify(m.chatId, TalkNotFound, Some(m.messageId)), ClearKeyboard(m.chatId, m.messageId)]) &&
      (found.Some? && prompted ==> b.log[|b.log| - 1] == Delete(m.chatId, m.messageId)) &&
      (found.Some? && !prompted ==> b.log[|b.log| - 1] == ReportError(m.chatId))
  {
    var b1 := Perform(bot, AnswerCallback(None));
    assert Next(b1.script) == AnswerAt(bot.script, 0);
    var (d, b) := ForceReplyTapSpec(db, bot, scope, m);
    assert b.log[..|b1.log|] == b1.log;
  }

  /**
   * What the tap writes: nothing when no row knows the tapped message or no prompt was produced,
   * otherwise the re-parented copy in place of the tapped row; the store stays valid.
   */
  lemma ForceReplyTapTables(db: Db, bot: BotState, scope: Scope, m: Message)
    requires Valid(db)
    ensures var (d, b) := ForceReplyTapSpec(db, bot, scope, m);
      var found := FindOriginalTransmission(db.transmissions, TripleOf(m));
      var prompted := ForceReplyAction(m, scope.blackHeartsAreSilent).Some? && AnswerAt(bot.script, 0).Some?;
      Valid(d) && (found.None? ==> d == db) &&
      (found.Some? && prompted ==>
        d.transmissions == Without(db.transmissions, found.value.id) + [Reparented(found.value, db.nextId, Triple(AnswerAt(bot.script, 0).value, m.chatId, m.botId))]) &&
      (found.Some? && !prompted ==> d == db)
  {
    var b1 := Perform(bot, AnswerCallback(None));
    var found := FindOriginalTransmission(db.transmissions, TripleOf(m));
    if found.Some? {
      assert Next(b1.script) == AnswerAt(bot.script, 0);
      ReparentReplacesRow(db, b1, m, found.value, scope.blackHeartsAreSilent);
    }
  }

  // ---------------------------------------------------------------- transmit_reply

  /**
   * The hit branch's request: back to the author of the replied-to copy, red heart, as a reply
   * to their message; inside a topic, under the allogrooming found or created for the pair,
   * with a notification only when it is new.
   */
  function HitRequest(db: Db, m: Message, botId: int, key: string, row: Transmission): (r: (Db, Req))
    ensures r.1.receiverChatId == row.sender.chatId && r.1.redHeart && r.1.replyToMsgId == Some(row.sender.msgId)
    ensures r.1.topicId == row.topicId && r.1.subtopicId.None? && r.1.replyToTransmissionId.None?
  {
    match row.topicId
    case None => (db, Req(row.sender.chatId, true, None, true, None, None, Some(row.sender.msgId), None))
    case Some(topicId) =>
      var (d, id, created) := FindOrCreateAllogrooming(db, Triple(m.messageId, m.chatId, botId), row.sender.chatId, row.sender.botId, topicId, key);
      (d, Req(row.sender.chatId, true, Some(topicId), !created, None, Some(id), Some(row.sender.msgId), None))
  }

  /**
   * The hit branch consults allogroomings only inside a topic; there it reuses the first match
   * on (topic, replier's chat and bot, author's chat and bot) or writes one new allogrooming,
   * and only a new one enables the notification.
   */
  lemma TransmitReplyHitAllogrooming(db: Db, m: Message, botId: int, key: string, row: Transmission)
    requires Valid(db)
    ensures var (db1, req) := HitRequest(db, m, botId, key, row);
      var found := if row.topicId.Some? then FindAllogrooming(db.allogroomings, m.chatId, botId, row.sender.chatId, row.sender.botId, row.topicId.value) else None;
      Valid(db1) && db1.transmissions == db.transmissions && db1.topics == db.topics && db1.subtopics == db.subtopics &&
      (row.topicId.None? ==> db1 == db && req.allogroomingId.None? && req.disableNotification) &&
      (found.Some? ==> db1 == db && req.allogroomingId == Some(found.value.id) && req.disableNotification) &&
      (row.topicId.Some? && found.None? ==>
        db1.allogroomings == db.allogroomings + [Allogrooming(db.nextId, row.topicId.value, Triple(m.messageId, m.chatId, botId), row.sender.chatId, row.sender.botId, key)] &&
        req.allogroomingId == Some(db.nextId) && !req.disableNotification)
  {
  }

  /** The hit branch on values: `b` has the replied-to keyboard cleared already. */
  function HitSpec(db: Db, b: BotState, scope: Scope, m: Message, botId: int, row: Transmission): (Db, BotState) {
    var (db1, req) := HitRequest(db, m, botId, scope.telegramUpdateS3Key, row);
    var o := Transmit(db1, b, scope, m, botId, botId, req);
    (o.db, if o.ok then o.bot else Perform(o.bot, Notify(m.chatId, MessageNotTransmitted, Some(m.messageId))))
  }

  /**
   * A reply to a received copy goes back once, to that copy's author: one relaying call when
   * there is content, to the row's sender chat, red heart, replying to the author's message,
   * and one row when it is delivered. "Not transmitted" is reported iff nothing was delivered.
   */
  lemma TransmitReplyHitSendsOnce(db: Db, b: BotState, scope: Scope, m: Message, botId: int, row: Transmission)
    requires Valid(db)
    ensures var (d, b2) := HitSpec(db, b, scope, m, botId, row);
      var (db1, req) := HitRequest(db, m, botId, scope.telegramUpdateS3Key, row);
      var delivered := Sendable(m) && AnswerAt(b.script, 0).Some?;
      Valid(d) && |d.transmissions| == |db1.transmissions| + (if delivered then 1 else 0) &&
      Deliveries(b2.log) == Deliveries(b.log) + (if Sendable(m) then [TransmitAction(scope, m, req).value] else []) &&
      (Sendable(m) ==> Recipient(TransmitAction(scope, m, req).value) == Some(row.sender.chatId)) &&
      req.redHeart && req.replyToMsgId == Some(row.sender.msgId) &&
      |b2.log| > 0 && (b2.log[|b2.log| - 1] == Notify(m.chatId, MessageNotTransmitted, Some(m.messageId)) <==> !delivered)
  {
    var (db1, req) := HitRequest(db, m, botId, scope.telegramUpdateS3Key, row);
    TransmitReplyHitAllogrooming(db, m, botId, scope.telegramUpdateS3Key, row);
    TransmitWritesOneRow(db1, b, scope, m, botId, botId, req);
    TransmitCalls(db1, b, scope, m, botId, botId, req);
    var o := Transmit(db1, b, scope, m, botId, botId, req);
    var notice := Notify(m.chatId, MessageNotTransmitted, Some(m.messageId));
    DeliveriesSnoc(o.bot.log, notice);
    assert Next(b.script) == AnswerAt(b.script, 0);
    if o.ok {
      assert |o.bot.log| > |b.log|;
      assert !o.bot.log[|o.bot.log| - 1].Notify?;
    }
  }

  /** The miss branch's request for one copy of the replied-to message. */
  function ReplyReq(row: Transmission, redHeart: bool): Req {
    Req(row.receiver.chatId, redHeart, row.topicId, true, None, row.allogroomingId, Some(row.receiver.msgId), None)
  }

  function ReplyReqs(rows: seq<Transmission>, redHeart: bool): (r: seq<Req>)
    ensures |r| == |rows|
    decreases |rows|
  {
    if rows == [] then [] else ReplyReqs(rows[..|rows| - 1], redHeart) + [ReplyReq(rows[|rows| - 1], redHeart)]
  }

  /** One request per copy, in the order of the copies. */
  lemma {:induction false} ReplyReqsTargets(rows: seq<Transmission>, redHeart: bool)
    ensures forall k :: 0 <= k < |rows| ==> ReplyReqs(rows, redHeart)[k] == ReplyReq(rows[k], redHeart)
    decreases |rows|
  {
    if rows != [] {
      var init := rows[..|rows| - 1];
      ReplyReqsTargets(init, redHeart);
      forall k | 0 <= k < |init| ensures rows[k] == init[k] { }
    }
  }

  /** The miss branch on values, over the copies of the replied-to message. */
  function MissSpec(db: Db, b: BotState, scope: Scope, m: Message, botId: int, replied: Triple, rows: seq<Transmission>): (Db, BotState) {
    if rows == [] then (db, Perform(b, Notify(m.chatId, TalkNotFound, Some(replied.msgId))))
    else
      var o := TransmitAll(Outcome(db, b, false), scope, m, botId, botId, ReplyReqs(rows, |rows| < 2));
      (o.db, if o.ok then o.bot else Perform(o.bot, Notify(m.chatId, MessageNotTransmitted, Some(m.messageId))))
  }

  /** After a fan-out that delivered something, the log does not end with a notice. */
  lemma LastCallOfFanOut(w: Outcome, scope: Scope, m: Message, senderBotId: int, receiverBotId: int, reqs: seq<Req>)
    requires !w.ok && TransmitAll(w, scope, m, senderBotId, receiverBotId, reqs).ok
    ensures var r := TransmitAll(w, scope, m, senderBotId, receiverBotId, reqs);
      |r.bot.log| > 0 && !r.bot.log[|r.bot.log| - 1].Notify?
  {
    TransmitAllAnswers(w, scope, m, senderBotId, receiverBotId, reqs);
    var prev := TransmitAll(w, scope, m, senderBotId, receiverBotId, reqs[..|reqs| - 1]);
    var req := reqs[|reqs| - 1];
    TransmitCalls(prev.db, prev.bot, scope, m, senderBotId, receiverBotId, req);
    var a := TransmitAction(scope, m, req);
    assert a.Some?;
    assert a.value.Send? || a.value.ForwardPoll?;
  }

  /**
   * A reply to one's own broadcast goes out to every copy of it: with no copies only "talk
   * not found" is answered; otherwise one attempt per copy, to the copy's chat, replying to the
   * copy, inheriting its topic and allogrooming, red heart iff there is a single copy; "not
   * transmitted" is reported iff no attempt produced a message.
   */
  lemma TransmitReplyMissFansOut(db: Db, b: BotState, scope: Scope, m: Message, botId: int, replied: Triple, rows: seq<Transmission>)
    ensures var reqs := ReplyReqs(rows, |rows| < 2);
      var (d, b2) := MissSpec(db, b, scope, m, botId, replied, rows);
      (rows == [] ==> d == db && b2 == Perform(b, Notify(m.chatId, TalkNotFound, Some(replied.msgId)))) &&
      (rows != [] ==>
        (forall k :: 0 <= k < |rows| ==> (reqs[k].receiverChatId == rows[k].receiver.chatId &&
          reqs[k].replyToMsgId == Some(rows[k].receiver.msgId) && reqs[k].topicId == rows[k].topicId &&
          reqs[k].allogroomingId == rows[k].allogroomingId && (reqs[k].redHeart <==> |rows| < 2))) &&
        Deliveries(b2.log) == Deliveries(b.log) + AttemptsFor(scope, m, reqs) &&
        |b2.log| > 0 &&
        (b2.log[|b2.log| - 1] == Notify(m.chatId, MessageNotTransmitted, Some(m.messageId)) <==>
          !exists k :: 0 <= k < (if Sendable(m) then |rows| else 0) && AnswerAt(b.script, k).Some?))
  {
    if rows != [] {
      var reqs := ReplyReqs(rows, |rows| < 2);
      ReplyReqsTargets(rows, |rows| < 2);
      var w := Outcome(db, b, false);
      TransmitAllAnswers(w, scope, m, botId, botId, reqs);
      TransmitAllDeliveries(w, scope, m, botId, botId, reqs);
      var o := TransmitAll(w, scope, m, botId, botId, reqs);
      var notice := Notify(m.chatId, MessageNotTransmitted, Some(m.messageId));
      if o.ok {
        LastCallOfFanOut(w, scope, m, botId, botId, reqs);
      } else {
        DeliveriesSnoc(o.bot.log, notice);
      }
    }
  }

  /** The id triple of the message a reply answers (same chat, same bot). */
  function RepliedTo(m: Message): Triple
    requires m.replyTo.Some?
  {
    Triple(m.replyTo.value, m.chatId, m.botId)
  }

  /** `transmit_reply` on values; the handler only sees replies. */
  function TransmitReplySpec(db: Db, bot: BotState, scope: Scope, m: Message, botId: int): (Db, BotState)
    requires m.replyTo.Some?
  {
    var b1 := Perform(bot, ClearKeyboard(m.chatId, m.replyTo.value));
    match FindOriginalTransmission(db.transmissions, RepliedTo(m))
    case Some(row) => HitSpec(db, b1, scope, m, botId, row)
    case None => MissSpec(db, b1, scope, m, botId, RepliedTo(m), FindTransmissionsBySenderMsg(db.transmissions, RepliedTo(m)))
  }

  // ---------------------------------------------------------------- the handlers

  /** `SwiperTransparency.start_topic`; `chats` is what `find_all_active_swiper_chat_ids` returns. */
  method StartTopic(store: Store, bot: Bot, scope: Scope, m: Message, chats: seq<int>)
    modifies store, bot
    ensures (store.State(), bot.State()) == StartTopicSpec(old(store.State()), old(bot.State()), scope, m, bot.id, chats)
  {
    var topicId := CreateTopic(store, scope, m, bot.id);
    ghost var w := Outcome(store.State(), bot.State(), false);
    var transmitted := false;
    for i := 0 to |chats|
      invariant Outcome(store.State(), bot.State(), transmitted) ==
        TransmitAll(w, scope, m, bot.id, bot.id, StartReqs(chats[..i], m.chatId, topicId, scope.blackHeartsAreSilent))
    {
      var c := chats[i];
      assert chats[..i + 1][..i] == chats[..i];
      ghost var reqs := StartReqs(chats[..i], m.chatId, topicId, scope.blackHeartsAreSilent);
      if IntToString(c) != IntToString(m.chatId) {
        assert StartReqs(chats[..i + 1], m.chatId, topicId, scope.blackHeartsAreSilent) == reqs + [StartReq(c, topicId, scope.blackHeartsAreSilent)];
        transmitted := TransmitNext(store, bot, scope, m, w, reqs, StartReq(c, topicId, scope.blackHeartsAreSilent), transmitted);
      } else {
        assert StartReqs(chats[..i + 1], m.chatId, topicId, scope.blackHeartsAreSilent) == reqs + [];
        assert reqs + [] == reqs;
      }
    }
    assert chats[..|chats|] == chats;
    bot.Do(StartNotice(m, transmitted));
  }

  /** The loop of `edit_message`: every copy is edited, and `edited` stays true only while every edit does. */
  method EditEach(bot: Bot, scope: Scope, m: Message, rows: seq<Transmission>, redHeartDefault: bool) returns (edited: bool)
    modifies bot
    ensures (bot.State(), edited) == EditAll(old(bot.State()), scope, m, rows, redHeartDefault)
  {
    ghost var b0 := bot.State();
    edited := true;
    for i := 0 to |rows|
      invariant (bot.State(), edited) == EditAll(b0, scope, m, rows[..i], redHeartDefault)
    {
      assert rows[..i + 1] == rows[..i] + [rows[i]];
      EditAllSnoc(b0, scope, m, rows[..i], rows[i], redHeartDefault);
      var row := rows[i];
      var e := EditTransmission(bot, scope, m, row.receiver.msgId, row.receiver.chatId, row.redHeart.GetOr(redHeartDefault));
      edited := e && edited;
    }
    assert rows[..|rows|] == rows;
  }

  /** `SwiperTransparency.edit_message`; `m` is the edited message. */
  method EditMessage(store: Store, bot: Bot, scope: Scope, m: Message)
    modifies bot
    ensures bot.State() == EditMessageSpec(store.State(), old(bot.State()), scope, m)
  {
    var rows := FindTransmissionsBySenderMsg(store.transmissions, TripleOf(m));
    if rows == [] {
      bot.Do(Notify(m.chatId, TalkNotFound, Some(m.messageId)));
      return;
    }
    var edited := EditEach(bot, scope, m, rows, |rows| < 2);
    if !edited {
      bot.Do(Notify(m.chatId, FailedToEditAtReceiver, Some(m.messageId)));
    }
  }

  /** `SwiperTransparency.force_reply`, the tap on a copy's reply button; `m` is the tapped copy. */
  method ForceReplyTap(store: Store, bot: Bot, scope: Scope, m: Message)
    modifies store, bot
    ensures (store.State(), bot.State()) == ForceReplyTapSpec(old(store.State()), old(bot.State()), scope, m)
  {
    bot.Do(AnswerCallback(None));
    var row := FindOriginalTransmission(store.transmissions, TripleOf(m));
    if row.None? {
      bot.Do(Notify(m.chatId, TalkNotFound, Some(m.messageId)));
      bot.Do(ClearKeyboard(m.chatId, m.messageId));
      return;
    }
    var ok := ForceReply(store, bot, m, row.value, scope.blackHeartsAreSilent);
    if ok {
      bot.Do(Delete(m.chatId, m.messageId));
    } else {
      bot.Do(ReportError(m.chatId));
    }
  }

  /** The hit branch of `transmit_reply`: the reply goes back to the author of `row`. */
  method ReplyToAuthor(store: Store, bot: Bot, scope: Scope, m: Message, row: Transmission)
    modifies store, bot
    ensures (store.State(), bot.State()) == HitSpec(old(store.State()), old(bot.State()), scope, m, bot.id, row)
  {
    var disableNotification := true;
    var allogroomingId: Option<Id> := None;
    var topicId := row.topicId;
    if topicId.Some? {
      var found := FindAllogrooming(store.allogroomings, m.chatId, bot.id, row.sender.chatId, row.sender.botId, topicId.value);
      if found.Some? {
        allogroomingId := Some(found.value.id);
      } else {
        var id := CreateAllogrooming(store, scope, m, bot.id, row.sender.chatId, row.sender.botId, topicId.value);
        allogroomingId := Some(id);
        disableNotification := false;
      }
    }
    var req := Req(row.sender.chatId, true, topicId, disableNotification, None, allogroomingId, Some(row.sender.msgId), None);
    var transmitted := TransmitMessage(store, bot, scope, m, bot.id, req);
    if !transmitted {
      bot.Do(Notify(m.chatId, MessageNotTransmitted, Some(m.messageId)));
    }
  }

  /** One round of `transmitted = transmit_message(...) or transmitted`: the OR fan-out grows by one request. */
  method TransmitNext(store: Store, bot: Bot, scope: Scope, m: Message, ghost w: Outcome, ghost reqs: seq<Req>, req: Req, transmitted: bool)
    returns (next: bool)
    requires Outcome(store.State(), bot.State(), transmitted) == TransmitAll(w, scope, m, bot.id, bot.id, reqs)
    modifies store, bot
    ensures Outcome(store.State(), bot.State(), next) == TransmitAll(w, scope, m, bot.id, bot.id, reqs + [req])
  {
    TransmitAllSnoc(w, scope, m, bot.id, bot.id, reqs, req);
    var t := TransmitMessage(store, bot, scope, m, bot.id, req);
    next := t || transmitted;
  }

  /** The loop of the miss branch: every copy in `rows` gets the reply, in order. */
  method ReplyEach(store: Store, bot: Bot, scope: Scope, m: Message, rows: seq<Transmission>, redHeart: bool) returns (transmitted: bool)
    modifies store, bot
    ensures Outcome(store.State(), bot.State(), transmitted) ==
      TransmitAll(Outcome(old(store.State()), old(bot.State()), false), scope, m, bot.id, bot.id, ReplyReqs(rows, redHeart))
  {
    ghost var w := Outcome(store.State(), bot.State(), false);
    transmitted := false;
    for i := 0 to |rows|
      invariant Outcome(store.State(), bot.State(), transmitted) == TransmitAll(w, scope, m, bot.id, bot.id, ReplyReqs(rows[..i], redHeart))
    {
      assert rows[..i + 1][..i] == rows[..i];
      assert rows[..i + 1] == rows[..i] + [rows[i]];
      ghost var reqs := ReplyReqs(rows[..i], redHeart);
      var req := ReplyReq(rows[i], redHeart);
      assert ReplyReqs(rows[..i + 1], redHeart) == reqs + [req];
      transmitted := TransmitNext(store, bot, scope, m, w, reqs, req, transmitted);
    }
    assert rows[..|rows|] == rows;
  }

  /** The miss branch of `transmit_reply`: the reply goes out to every copy in `rows`. */
  method ReplyToCopies(store: Store, bot: Bot, scope: Scope, m: Message, replied: Triple, rows: seq<Transmission>)
    modifies store, bot
    ensures (store.State(), bot.State()) == MissSpec(old(store.State()), old(bot.State()), scope, m, bot.id, replied, rows)
  {
    if rows == [] {
      bot.Do(Notify(m.chatId, TalkNotFound, Some(replied.msgId)));
      return;
    }
    var transmitted := ReplyEach(store, bot, scope, m, rows, |rows| < 2);
    if !transmitted {
      bot.Do(Notify(m.chatId, MessageNotTransmitted, Some(m.messageId)));
    }
  }

  /** `SwiperTransparency.transmit_reply`; `m` is the reply. */
  method TransmitReply(store: Store, bot: Bot, scope: Scope, m: Message)
    requires m.replyTo.Some?
    modifies store, bot
    ensures (store.State(), bot.State()) == TransmitReplySpec(old(store.State()), old(bot.State()), scope, m, bot.id)
  {
    bot.Do(ClearKeyboard(m.chatId, m.replyTo.value));
    var replied := Triple(m.replyTo.value, m.chatId, m.botId);
    var row := FindOriginalTransmission(store.transmissions, replied);
    if row.Some? {
      ReplyToAuthor(store, bot, scope, m, row.value);
    } else {
      var rows := FindTransmissionsBySenderMsg(store.transmissions, replied);
      ReplyToCopies(store, bot, scope, m, replied, rows);
    }
  }

  // ---------------------------------------------------------------- the dispatcher

  /** The commands the dispatcher knows (`/start`, `/help`, `/about`). */
  datatype Command = StartCommand | HelpCommand | AboutCommand

  /**
   * An update as the dispatcher sees it: a message (new or edited, with the command it starts
   * with, if any) or a tap on an inline button of message `m`.
   */
  datatype Update =
    | MessageUpdate(m: Message, edited: bool, command: Option<Command>)
    | CallbackUpdate(m: Message, data: CallbackData)

  /** The handler an update reaches. */
  datatype Route = Stopped | HelpRoute | AboutRoute | EditRoute | ReplyRoute | TopicRoute | TapRoute | Unhandled

  /**
   * `configure_dispatcher`: the guard in group -100500 sees every message update and stops
   * unauthorized ones; group 0 then tries the command handlers, edits, replies and finally every
   * other message, in that order; button taps bypass the guard and only the reply button has a
   * handler.
   */
  function RouteOf(u: Update, authorized: bool): (r: Route)
    ensures u.CallbackUpdate? ==> r != Stopped && (r == TapRoute <==> u.data == ReplyData) && (r != TapRoute ==> r == Unhandled)
    ensures u.MessageUpdate? && !authorized ==> r == Stopped
    ensures u.MessageUpdate? && authorized ==> r != Stopped && r != Unhandled && r != TapRoute
    ensures r == EditRoute ==> u.MessageUpdate? && u.edited && u.command.None?
    ensures r == ReplyRoute ==> u.MessageUpdate? && !u.edited && u.command.None? && u.m.replyTo.Some?
    ensures r == TopicRoute ==> u.MessageUpdate? && !u.edited && u.command.None? && u.m.replyTo.None?
  {
    match u
    case CallbackUpdate(_, data) => if data == ReplyData then TapRoute else Unhandled
    case MessageUpdate(m, edited, command) =>
      if !authorized then Stopped
      else
        match command
        case Some(StartCommand) => HelpRoute
        case Some(HelpCommand) => HelpRoute
        case Some(AboutCommand) => AboutRoute
        case None =>
          if edited then EditRoute
          else if m.replyTo.Some? then ReplyRoute
          else TopicRoute
  }

  /** The whole update, on values: the route taken and that handler's effect. */
  function HandleSpec(db: Db, bot: BotState, scope: Scope, u: Update, authorized: bool, chats: seq<int>): (r: (Db, BotState))
    ensures u.MessageUpdate? && !authorized ==> r == (db, bot)
    ensures u.CallbackUpdate? && u.data != ReplyData ==> r == (db, bot)
    ensures RouteOf(u, authorized) == HelpRoute || RouteOf(u, authorized) == AboutRoute || RouteOf(u, authorized) == EditRoute ==> r.0 == db
  {
    match RouteOf(u, authorized)
    case Stopped => (db, bot)
    case Unhandled => (db, bot)
    case HelpRoute => (db, Perform(bot, SendHelp(u.m.chatId, scope.swiperUsername)))
    case AboutRoute => (db, Perform(bot, SendAbout(u.m.chatId)))
    case EditRoute => (db, EditMessageSpec(db, bot, scope, u.m))
    case ReplyRoute => TransmitReplySpec(db, bot, scope, u.m, u.m.botId)
    case TopicRoute => StartTopicSpec(db, bot, scope, u.m, u.m.botId, chats)
    case TapRoute => ForceReplyTapSpec(db, bot, scope, u.m)
  }

  /**
   * The dispatcher: `authorized` is the current swiper's `is_swiper_authorized()` and `chats`
   * the active chats, both read from the per-update swiper bookkeeping.
   */
  method Handle(store: Store, bot: Bot, scope: Scope, u: Update, authorized: bool, chats: seq<int>)
    requires u.m.botId == bot.id
    modifies store, bot
    ensures (store.State(), bot.State()) == HandleSpec(old(store.State()), old(bot.State()), scope, u, authorized, chats)
  {
    var route := RouteOf(u, authorized);
    match route
    case Stopped =>
    case Unhandled =>
    case HelpRoute => bot.Do(SendHelp(u.m.chatId, scope.swiperUsername));
    case AboutRoute => bot.Do(SendAbout(u.m.chatId));
    case EditRoute => EditMessage(store, bot, scope, u.m);
    case ReplyRoute => TransmitReply(store, bot, scope, u.m);
    case TopicRoute => StartTopic(store, bot, scope, u.m, chats);
    case TapRoute => ForceReplyTap(store, bot, scope, u.m);
  }
}
