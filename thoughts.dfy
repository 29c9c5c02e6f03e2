/**
 * The thought context of a chat: the bounded list of recent thoughts kept in the chat's PTB
 * chat data, and the thought id that names a user message across chats and bots.
 */
module Thoughts {
  import opened Wrappers
  import opened Text

  /** Who spoke last in a swiper conversation. */
  datatype ConvState = UserReplied | BotReplied

  /** One entry of the thought context. */
  datatype Thought = Thought(text: string, thoughtId: string, msgId: int, convState: ConvState, timestampMs: int)

  /** `construct_thought_id(msg_id, chat_id, bot_id)`: `m<msg>_c<chat>_b<bot>`. */
  function ConstructThoughtId(msgId: int, chatId: int, botId: int): string {
    "m" + IntToString(msgId) + "_c" + IntToString(chatId) + "_b" + IntToString(botId)
  }

  /** Reads a thought id back into its three numbers; `None` for text of another shape. */
  function ParseThoughtId(s: string): Option<(int, int, int)> {
    if |s| == 0 || s[0] != 'm' then None
    else
      var parts := Split(s[1..], '_');
      if |parts| != 3 || |parts[1]| == 0 || parts[1][0] != 'c' || |parts[2]| == 0 || parts[2][0] != 'b' then None
      else
        match (ParseInt(parts[0]), ParseInt(parts[1][1..]), ParseInt(parts[2][1..]))
        case (Some(m), Some(c), Some(b)) => Some((m, c, b))
        case _ => None
  }

  lemma NoUnderscore(i: int)
    ensures '_' !in IntToString(i)
  {
    IntToStringChars(i);
  }

  /** A thought id names its message, chat and bot: parsing it gives the three numbers back. */
  lemma ThoughtIdRoundTrip(msgId: int, chatId: int, botId: int)
    ensures ParseThoughtId(ConstructThoughtId(msgId, chatId, botId)) == Some((msgId, chatId, botId))
  {
    var a, b, c := IntToString(msgId), IntToString(chatId), IntToString(botId);
    var s := ConstructThoughtId(msgId, chatId, botId);
    var parts := [a, "c" + b, "b" + c];
    NoUnderscore(msgId);
    NoUnderscore(chatId);
    NoUnderscore(botId);
    assert parts[..2][..1] == [a];
    assert parts[..2] == [a, "c" + b];
    assert Join("_", parts[..2]) == a + "_" + ("c" + b);
    assert Join("_", parts) == a + "_" + ("c" + b) + "_" + ("b" + c);
    assert s == "m" + (a + "_" + ("c" + b) + "_" + ("b" + c));
    assert s[1..] == Join("_", parts);
    SplitJoin(parts, '_');
    assert parts[1][1..] == b;
    assert parts[2][1..] == c;
    ParseIntToString(msgId);
    ParseIntToString(chatId);
    ParseIntToString(botId);
  }

  /** Two messages get the same thought id only when message, chat and bot all agree. */
  lemma ThoughtIdInjective(m1: int, c1: int, b1: int, m2: int, c2: int, b2: int)
    ensures ConstructThoughtId(m1, c1, b1) == ConstructThoughtId(m2, c2, b2) <==> (m1, c1, b1) == (m2, c2, b2)
  {
    ThoughtIdRoundTrip(m1, c1, b1);
    ThoughtIdRoundTrip(m2, c2, b2);
  }

  /** Where Python's slice `s[i:]` starts, for a sequence of length `len`. */
  function SliceStart(len: nat, i: int): (k: nat)
    ensures k <= len
  {
    if i < 0 then (if i + len < 0 then 0 else i + len) else if i > len then len else i
  }

  function Min(a: int, b: int): int {
    if a < b then a else b
  }

  /**
   * Python's `s[-n:]`: the last `n` entries for a positive `n`, the whole list for `n == 0`
   * (since `-0 == 0`), and the list without its first `-n` entries for a negative `n`.
   */
  function LastN<T>(s: seq<T>, n: int): (r: seq<T>)
    ensures n > 0 ==> r == s[|s| - Min(n, |s|)..]
    ensures n == 0 ==> r == s
    ensures n < 0 ==> r == s[Min(-n, |s|)..]
  {
    s[SliceStart(|s|, -n)..]
  }

  /** `[t for t in ts if t.conv_state == USER_REPLIED]`. */
  function UserOnly(ts: seq<Thought>): (r: seq<Thought>)
    ensures |r| <= |ts|
    decreases |ts|
  {
    if ts == [] then []
    else
      var init := UserOnly(ts[..|ts| - 1]);
      var last := ts[|ts| - 1];
      if last.convState == UserReplied then init + [last] else init
  }

  /** The user's thoughts are kept and the bot's dropped: a thought is in the result exactly when it is a user's thought of the list. */
  lemma {:induction false} UserOnlyMembers(ts: seq<Thought>)
    ensures forall t :: t in UserOnly(ts) <==> t in ts && t.convState == UserReplied
    decreases |ts|
  {
    if ts != [] {
      var init := ts[..|ts| - 1];
      UserOnlyMembers(init);
      assert ts == init + [ts[|ts| - 1]];
    }
  }

  /** Keeping only the user's thoughts keeps them in their order: filtering a concatenation filters each part. */
  lemma {:induction false} UserOnlyPreservesOrder(ts: seq<Thought>, us: seq<Thought>)
    ensures UserOnly(ts + us) == UserOnly(ts) + UserOnly(us)
    decreases |us|
  {
    if us == [] {
      assert ts + us == ts;
      assert UserOnly(ts) + [] == UserOnly(ts);
    } else {
      var us', x := us[..|us| - 1], us[|us| - 1];
      assert us == us' + [x];
      assert ts + us == (ts + us') + [x];
      UserOnlyPreservesOrder(ts, us');
      UserOnlySnoc(ts + us', x);
      UserOnlySnoc(us', x);
      var a, b, c := UserOnly(ts), UserOnly(us'), if x.convState == UserReplied then [x] else [];
      assert UserOnly(ts + us) == (a + b) + c;
      assert UserOnly(us) == b + c;
      assert (a + b) + c == a + (b + c);
    }
  }

  /** Filtering one more thought keeps it exactly when it is a user's. */
  lemma UserOnlySnoc(ts: seq<Thought>, x: Thought)
    ensures UserOnly(ts + [x]) == UserOnly(ts) + (if x.convState == UserReplied then [x] else [])
  {
    assert (ts + [x])[..|ts + [x]| - 1] == ts;
  }

  /** `get_latest_thoughts(context_size, user_only)` on the list. */
  function LatestThoughts(ts: seq<Thought>, contextSize: int, userOnly: bool): seq<Thought> {
    var l := LastN(ts, contextSize);
    if userOnly then UserOnly(l) else l
  }

  function TextsOf(ts: seq<Thought>): (r: seq<string>)
    ensures |r| == |ts| && forall k :: 0 <= k < |ts| ==> r[k] == ts[k].text
  {
    seq(|ts|, k requires 0 <= k < |ts| => ts[k].text)
  }

  function IdsOf(ts: seq<Thought>): (r: seq<string>)
    ensures |r| == |ts| && forall k :: 0 <= k < |ts| ==> r[k] == ts[k].thoughtId
  {
    seq(|ts|, k requires 0 <= k < |ts| => ts[k].thoughtId)
  }

  /** The separator `concat_latest_thoughts` joins with. */
  const ThoughtSeparator: string := "\n.\n"

  /** `reject_latest_thought(validate_msg_id)` on the list: `None` where the code raises SwiperError. */
  function RejectLatest(ts: seq<Thought>, validateMsgId: int): (r: Option<seq<Thought>>)
    ensures r.None? <==> (|ts| == 0 || ts[|ts| - 1].msgId != validateMsgId)
    ensures r.Some? ==> r.value + [ts[|ts| - 1]] == ts
  {
    if |ts| == 0 || ts[|ts| - 1].msgId != validateMsgId then None else Some(ts[..|ts| - 1])
  }

  /** `get_latest_conv_state` on the list: the last entry's state, or `None` when empty. */
  function LatestConvState(ts: seq<Thought>): (r: Option<ConvState>)
    ensures r.None? <==> ts == []
    ensures r.Some? ==> r.value == ts[|ts| - 1].convState
  {
    if ts == [] then None else Some(ts[|ts| - 1].convState)
  }

  /** The default bound of `trim_context`. */
  const MaxThoughtCtxLen: nat := 15

  /** Trimming keeps the last `min(len, 15)` entries in order, and trimming twice is trimming once. */
  lemma TrimKeepsLatest(ts: seq<Thought>)
    ensures |LastN(ts, MaxThoughtCtxLen)| == Min(|ts|, 15)
    ensures LastN(ts, MaxThoughtCtxLen) == ts[|ts| - Min(|ts|, 15)..]
    ensures LastN(LastN(ts, MaxThoughtCtxLen), MaxThoughtCtxLen) == LastN(ts, MaxThoughtCtxLen)
  {
  }

  /** Appending a thought and rejecting it by its message id gives the list back. */
  lemma AppendThenReject(ts: seq<Thought>, t: Thought)
    ensures RejectLatest(ts + [t], t.msgId) == Some(ts)
    ensures LatestConvState(ts + [t]) == Some(t.convState)
  {
    assert (ts + [t])[..|ts|] == ts;
  }

  /**
   * The chat data of one chat as the swiper handlers use it; each field is a key that may be
   * absent. The thought list is kept under its own key and only reached through this object.
   */
  class ChatData {
    var thoughtCtx: Option<seq<Thought>>
    var isBotSilent: Option<bool>
    var answererMode: Option<string>
    var latestMsgId: Option<int>
    var latestAnswerMsgId: Option<int>

    constructor ()
      ensures thoughtCtx.None? && isBotSilent.None? && answererMode.None? && latestMsgId.None? && latestAnswerMsgId.None?
    {
      thoughtCtx := None;
      isBotSilent := None;
      answererMode := None;
      latestMsgId := None;
      latestAnswerMsgId := None;
    }

    /** The thought list as `setdefault(THOUGHT_CTX, [])` sees it. */
    function Thoughts(): seq<Thought>
      reads this
    {
      thoughtCtx.GetOr([])
    }
  }

  /** `ThoughtContext`: the thought list of one chat's chat data. */
  class ThoughtContext {
    const chatData: ChatData

    constructor (chatData: ChatData)
      ensures this.chatData == chatData
    {
      this.chatData := chatData;
    }

    /** `get_list`: the stored list, created empty under its key when absent. */
    method GetList() returns (l: seq<Thought>)
      modifies chatData
      ensures l == old(chatData.Thoughts())
      ensures chatData.thoughtCtx == Some(l)
      ensures chatData.isBotSilent == old(chatData.isBotSilent) && chatData.answererMode == old(chatData.answererMode)
      ensures chatData.latestMsgId == old(chatData.latestMsgId) && chatData.latestAnswerMsgId == old(chatData.latestAnswerMsgId)
    {
      l := chatData.thoughtCtx.GetOr([]);
      chatData.thoughtCtx := Some(l);
    }

    /** `append_thought`: one entry more, at the end; `now` is the clock reading. */
    method AppendThought(text: string, thoughtId: string, msgId: int, convState: ConvState, now: int)
      modifies chatData
      ensures chatData.thoughtCtx == Some(old(chatData.Thoughts()) + [Thought(text, thoughtId, msgId, convState, now)])
      ensures chatData.isBotSilent == old(chatData.isBotSilent) && chatData.answererMode == old(chatData.answererMode)
      ensures chatData.latestMsgId == old(chatData.latestMsgId) && chatData.latestAnswerMsgId == old(chatData.latestAnswerMsgId)
    {
      var l := GetList();
      chatData.thoughtCtx := Some(l + [Thought(text, thoughtId, msgId, convState, now)]);
    }

    /** `trim_context(max_thought_ctx_len)`: the list is replaced by its slice `[-max_thought_ctx_len:]`. */
    method TrimContext(maxThoughtCtxLen: int)
      modifies chatData
      ensures chatData.thoughtCtx == Some(LastN(old(chatData.Thoughts()), maxThoughtCtxLen))
      ensures chatData.isBotSilent == old(chatData.isBotSilent) && chatData.answererMode == old(chatData.answererMode)
      ensures chatData.latestMsgId == old(chatData.latestMsgId) && chatData.latestAnswerMsgId == old(chatData.latestAnswerMsgId)
    {
      var l := GetList();
      chatData.thoughtCtx := Some(LastN(l, maxThoughtCtxLen));
    }

    /**
     * `reject_latest_thought(validate_msg_id)`: `ok` is false where the code raises SwiperError
     * (empty list, or the last entry is of another message); then the list is left as it was.
     */
    method RejectLatestThought(validateMsgId: int) returns (ok: bool)
      modifies chatData
      ensures ok == RejectLatest(old(chatData.Thoughts()), validateMsgId).Some?
      ensures chatData.thoughtCtx == Some(RejectLatest(old(chatData.Thoughts()), validateMsgId).GetOr(old(chatData.Thoughts())))
      ensures chatData.isBotSilent == old(chatData.isBotSilent) && chatData.answererMode == old(chatData.answererMode)
      ensures chatData.latestMsgId == old(chatData.latestMsgId) && chatData.latestAnswerMsgId == old(chatData.latestAnswerMsgId)
    {
      var thoughts := GetList();
      if |thoughts| == 0 {
        return false;
      }
      var latest := thoughts[|thoughts| - 1];
      if latest.msgId != validateMsgId {
        return false;
      }
      chatData.thoughtCtx := Some(thoughts[..|thoughts| - 1]);
      ok := true;
    }

    /** `get_latest_conv_state`. */
    method GetLatestConvState() returns (r: Option<ConvState>)
      modifies chatData
      ensures r == LatestConvState(old(chatData.Thoughts()))
      ensures chatData.thoughtCtx == Some(old(chatData.Thoughts()))
      ensures chatData.isBotSilent == old(chatData.isBotSilent) && chatData.answererMode == old(chatData.answererMode)
      ensures chatData.latestMsgId == old(chatData.latestMsgId) && chatData.latestAnswerMsgId == old(chatData.latestAnswerMsgId)
    {
      var thoughts := GetList();
      if |thoughts| == 0 {
        return None;
      }
      r := Some(thoughts[|thoughts| - 1].convState);
    }

    /** `get_latest_thoughts(context_size, user_only)`. */
    method GetLatestThoughts(contextSize: int, userOnly: bool) returns (r: seq<Thought>)
      modifies chatData
      ensures r == LatestThoughts(old(chatData.Thoughts()), contextSize, userOnly)
      ensures chatData.thoughtCtx == Some(old(chatData.Thoughts()))
      ensures chatData.isBotSilent == old(chatData.isBotSilent) && chatData.answererMode == old(chatData.answererMode)
      ensures chatData.latestMsgId == old(chatData.latestMsgId) && chatData.latestAnswerMsgId == old(chatData.latestAnswerMsgId)
    {
      var l := GetList();
      r := LastN(l, contextSize);
      if userOnly {
        r := UserOnly(r);
      }
    }

    /** `concat_latest_thoughts`: the selected texts joined with `"\n.\n"`. */
    method ConcatLatestThoughts(contextSize: int, userOnly: bool) returns (r: string)
      modifies chatData
      ensures r == Join(ThoughtSeparator, TextsOf(LatestThoughts(old(chatData.Thoughts()), contextSize, userOnly)))
      ensures chatData.thoughtCtx == Some(old(chatData.Thoughts()))
      ensures chatData.isBotSilent == old(chatData.isBotSilent) && chatData.answererMode == old(chatData.answererMode)
      ensures chatData.latestMsgId == old(chatData.latestMsgId) && chatData.latestAnswerMsgId == old(chatData.latestAnswerMsgId)
    {
      var ts := GetLatestThoughts(contextSize, userOnly);
      r := Join(ThoughtSeparator, TextsOf(ts));
    }

    /** `get_latest_thought_ids`: the ids of the same selection, in the same order. */
    method GetLatestThoughtIds(contextSize: int, userOnly: bool) returns (r: seq<string>)
      modifies chatData
      ensures r == IdsOf(LatestThoughts(old(chatData.Thoughts()), contextSize, userOnly))
      ensures chatData.thoughtCtx == Some(old(chatData.Thoughts()))
      ensures chatData.isBotSilent == old(chatData.isBotSilent) && chatData.answererMode == old(chatData.answererMode)
      ensures chatData.latestMsgId == old(chatData.latestMsgId) && chatData.latestAnswerMsgId == old(chatData.latestAnswerMsgId)
    {
      var ts := GetLatestThoughts(contextSize, userOnly);
      r := IdsOf(ts);
    }
  }
}
