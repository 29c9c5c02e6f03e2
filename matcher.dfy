/**
 * The peer picker of the prototype: the three configured swiper chats, and a random one of
 * them other than the asking chat.
 */
module SwiperMatcher {
  import opened Wrappers
  import opened Utils
  import opened ChatDataStore

  /** The three chat ids read from the environment at start-up, as text. */
  datatype Config = Config(swiper1: string, swiper2: string, swiper3: string)

  /** `get_all_swiper_chat_ids`: the set of the three configured ids. */
  function AllSwiperChatIds(c: Config): set<string> {
    {c.swiper1, c.swiper2, c.swiper3}
  }

  /**
   * The configured ids without repeats, in the configured order. The order in which
   * `tuple(...)` lists a set is Python's hash order; this is one fixed order standing for it.
   */
  function Listed(c: Config): (r: seq<string>)
    ensures forall x :: x in r <==> x in AllSwiperChatIds(c)
    ensures forall i, j :: 0 <= i < j < |r| ==> r[i] != r[j]
  {
    [c.swiper1] + (if c.swiper2 != c.swiper1 then [c.swiper2] else []) +
    (if c.swiper3 != c.swiper1 && c.swiper3 != c.swiper2 then [c.swiper3] else [])
  }

  /** `xs` with `x` removed. */
  function Without(xs: seq<string>, x: string): (r: seq<string>)
    ensures forall y :: y in r <==> y in xs && y != x
    decreases |xs|
  {
    if xs == [] then []
    else Without(xs[..|xs| - 1], x) + (if xs[|xs| - 1] == x then [] else [xs[|xs| - 1]])
  }

  /** `random.choice(rest)` with the draw `pick`; `None` where it raises on an empty sequence. */
  function Choice(rest: seq<string>, pick: nat): (r: Option<string>)
    ensures r.Some? <==> rest != []
    ensures r.Some? ==> r.value in rest
  {
    if rest == [] then None else Some(rest[pick % |rest|])
  }

  /** Every element of a sequence is the choice for some draw. */
  lemma ChoiceCovers(rest: seq<string>, x: string)
    requires x in rest
    ensures exists pick: nat :: Choice(rest, pick) == Some(x)
  {
    var k :| 0 <= k < |rest| && rest[k] == x;
    SmallModulus(k, |rest|);
    assert Choice(rest, k) == Some(x);
  }

  /** A draw below the length is its own remainder. */
  lemma SmallModulus(k: nat, n: nat)
    requires k < n
    ensures k % n == k
  {
  }

  /**
   * `find_match_for_swiper(swiper_chat_id)`: the chat id is turned into text and removed from
   * the set (raising when it is not there), and `random.choice` picks from what is left
   * (raising when nothing is); `pick` is the random draw. `None` where the call raises.
   */
  function FindMatchForSwiper(c: Config, swiperChatId: PyValue, pick: nat): (r: Option<string>)
    ensures r.Some? ==> r.value in AllSwiperChatIds(c) && r.value != StrOf(swiperChatId)
    ensures r.None? <==> StrOf(swiperChatId) !in AllSwiperChatIds(c) || AllSwiperChatIds(c) == {StrOf(swiperChatId)}
  {
    var id := StrOf(swiperChatId);
    if id !in AllSwiperChatIds(c) then None
    else
      var rest := Without(Listed(c), id);
      assert rest == [] ==> forall x :: x in AllSwiperChatIds(c) ==> x == id;
      Choice(rest, pick)
  }

  /** Every configured chat other than the asking one is the match for some draw. */
  lemma EveryPeerCanBeMatched(c: Config, swiperChatId: PyValue, peer: string)
    requires StrOf(swiperChatId) in AllSwiperChatIds(c)
    requires peer in AllSwiperChatIds(c) && peer != StrOf(swiperChatId)
    ensures exists pick: nat :: FindMatchForSwiper(c, swiperChatId, pick) == Some(peer)
  {
    var rest := Without(Listed(c), StrOf(swiperChatId));
    assert peer in rest;
    ChoiceCovers(rest, peer);
    var pick: nat :| Choice(rest, pick) == Some(peer);
    assert FindMatchForSwiper(c, swiperChatId, pick) == Some(peer);
  }
}
