/**
 * The earlier signature scheme: one of five fixed pseudonyms after two line breaks, marked
 * italic by an entity whose offset and length are counted in characters. The caller's entity
 * list is extended in place when it is a non-empty list.
 */
module SwiperUsername {
  import opened Wrappers
  import opened Text
  import opened Telegram

  /** The five pseudonyms `kind_of_random_username` chooses from. */
  const KindOfRandomSet: seq<string> := [
    "Komatsu-Chiyuki-5580",
    "Otonari-Ichi-9984",
    "Eto-Utzuki-3786",
    "Haruyama-Torio-6952",
    "Kashiwagi-Sosa-3923"
  ]

  /** `kind_of_random_username`: `pick` is the index `random.choice` draws. */
  function KindOfRandomUsername(pick: nat): (r: string)
    requires pick < |KindOfRandomSet|
    ensures r in KindOfRandomSet
  {
    KindOfRandomSet[pick]
  }

  /** Every pseudonym is plain ASCII, so its length in characters is its length in UTF-16 code units. */
  lemma PseudonymsAreAscii(pick: nat)
    requires pick < |KindOfRandomSet|
    ensures Utf16Len(KindOfRandomUsername(pick)) == |KindOfRandomUsername(pick)|
  {
    Utf16LenBmp(KindOfRandomUsername(pick));
  }

  /** A Python list of message entities, which `+=` extends in place. */
  class EntityList {
    var items: seq<Entity>

    constructor (items: seq<Entity>)
      ensures this.items == items
    {
      this.items := items;
    }
  }

  /** The entity as the code computes it: offset and length counted in characters. */
  function CharCountEntity(text: string, username: string): Entity {
    Entity("italic", |text| + 2, |username|)
  }

  /**
   * `append_username(text, entities)`. A missing text is empty. `entities or []` keeps the
   * caller's list when it is non-empty, so `+=` then extends the caller's list and the result
   * is that same list; a missing or empty list is replaced by a new one and the caller's is
   * left as it was.
   */
  method AppendUsername(text: Option<string>, entities: EntityList?, pick: nat) returns (resultText: string, result: EntityList)
    requires pick < |KindOfRandomSet|
    modifies entities
    ensures resultText == text.GetOr("") + "\n\n" + KindOfRandomUsername(pick)
    ensures result.items == (if entities == null then [] else old(entities.items)) + [CharCountEntity(text.GetOr(""), KindOfRandomUsername(pick))]
    ensures entities != null && old(entities.items) != [] ==> result == entities
    ensures entities == null || old(entities.items) == [] ==> fresh(result)
    ensures entities != null && old(entities.items) == [] ==> entities.items == []
  {
    var t := text.GetOr("");
    var list: EntityList;
    if entities != null && entities.items != [] {
      list := entities;
    } else {
      list := new EntityList([]);
    }
    var username := KindOfRandomUsername(pick);
    resultText := t + "\n\n" + username;
    list.items := list.items + [CharCountEntity(t, username)];
    result := list;
  }

  /**
   * The character-count offset misses the username as soon as the text holds a character
   * outside the Basic Multilingual Plane: after one emoji, the username starts at UTF-16
   * position 4, but the entity says 3.
   */
  lemma CharCountOffsetMissesUsername(pick: nat)
    requires pick < |KindOfRandomSet|
    ensures var text := "\U{1F600}";
      CharCountEntity(text, KindOfRandomUsername(pick)).offset == 3 &&
      Utf16Len(text + "\n\n") == 4
  {
    var text := "\U{1F600}";
    assert text[..0] == "";
    assert Utf16Len(text) == 2;
    Utf16LenBmp("\n\n");
    Utf16LenConcat(text, "\n\n");
  }

  /** The entity measured as the Bot API measures it, in UTF-16 code units. */
  function Utf16Entity(text: string, username: string): Entity {
    Entity("italic", Utf16Len(text) + 2, Utf16Len(username))
  }

  /** With UTF-16 measures, the entity covers exactly the trailing username, for every text. */
  lemma {:induction false} Utf16EntityCoversUsername(text: string, username: string)
    ensures var s := text + "\n\n" + username;
      var e := Utf16Entity(text, username);
      var units := Utf16Encode(s);
      e.offset + e.length == |units| &&
      units[e.offset..e.offset + e.length] == Utf16Encode(username)
  {
    var prefix := text + "\n\n";
    var s := prefix + username;
    Utf16EncodeConcat(prefix, username);
    Utf16LenConcat(text, "\n\n");
    Utf16LenIsEncodedLength(prefix);
    Utf16LenIsEncodedLength(username);
    Utf16LenBmp("\n\n");
    var e := Utf16Entity(text, username);
    var units := Utf16Encode(s);
    assert e.offset == |Utf16Encode(prefix)|;
    assert e.length == |Utf16Encode(username)|;
    assert units == Utf16Encode(prefix) + Utf16Encode(username);
  }

  /** On text inside the Basic Multilingual Plane the two measures agree, so the code is right there. */
  lemma CharCountAgreesOnBmp(text: string, pick: nat)
    requires pick < |KindOfRandomSet|
    requires forall k :: 0 <= k < |text| ==> text[k] as int < 0x1_0000
    ensures CharCountEntity(text, KindOfRandomUsername(pick)) == Utf16Entity(text, KindOfRandomUsername(pick))
  {
    Utf16LenBmp(text);
    PseudonymsAreAscii(pick);
  }
}
