/**
 * The anonymous signature the relay appends to every transmitted text or caption: a
 * generated swiper username after a fixed delimiter, marked italic by a message entity whose
 * offset and length are counted in UTF-16 code units, as the Bot API measures them.
 */
module SwiperUsernames {
  import opened Wrappers
  import opened Text
  import opened Telegram

  /** The delimiter between the text and the username: two line breaks, the bust emoji, a space. */
  const Delimiter: string := "\n\n\U{1F464} "

  lemma DelimiterLength()
    ensures Utf16Len(Delimiter) == 5
  {
    var d := Delimiter;
    assert d[..|d| - 1] == "\n\n\U{1F464}";
    assert d[..|d| - 1][..2] == "\n\n";
    assert "\n\n"[..1] == "\n";
    assert "\n"[..0] == "";
  }

  /** The username record `generate_swiper_username` builds. */
  datatype UsernameRecord = UsernameRecord(username: string, baseName: string)

  /**
   * `generate_swiper_username`: `pick` is the index `secrets.choice` draws from the list of
   * given names and `draw` is `secrets.randbelow(7900)`. An empty list of names makes
   * `secrets.choice` raise, which is `None` here.
   */
  function GenerateSwiperUsername(names: seq<string>, pick: nat, draw: nat): (r: Option<UsernameRecord>)
    requires draw < 7900
    requires |names| > 0 ==> pick < |names|
    ensures r.None? <==> |names| == 0
    ensures r.Some? ==> r.value.baseName == names[pick]
    ensures r.Some? ==> exists n :: 2100 <= n <= 9999 && r.value.username == names[pick] + NatToString(n)
  {
    if |names| == 0 then None
    else
      var number := draw + 2100;
      Some(UsernameRecord(names[pick] + NatToString(number), names[pick]))
  }

  /** The generated username is the base name followed by exactly four digits that read back as a number in [2100, 9999]. */
  lemma GeneratedNumberSuffix(names: seq<string>, pick: nat, draw: nat)
    requires draw < 7900 && pick < |names|
    ensures var r := GenerateSwiperUsername(names, pick, draw).value;
      var suffix := r.username[|r.baseName|..];
      |r.username| == |r.baseName| + 4 && r.username[..|r.baseName|] == r.baseName &&
      AllDigits(suffix) && 2100 <= DigitsValue(suffix) <= 9999
  {
    var r := GenerateSwiperUsername(names, pick, draw).value;
    FourDigits(draw + 2100);
    NatToStringDigits(draw + 2100);
    assert r.username[|r.baseName|..] == NatToString(draw + 2100);
  }

  /** The italic entity that marks a username appended after `text`. */
  function UsernameEntity(text: string, username: string): Entity {
    Entity("italic", Utf16Len(text) + Utf16Len(Delimiter), Utf16Len(username))
  }

  /**
   * `append_swiper_username(text, entities, username)`: a missing text is empty, missing
   * entities are an empty list, and the result is a new list (the caller's is untouched).
   */
  function AppendSwiperUsername(text: Option<string>, entities: Option<seq<Entity>>, username: string): (r: (string, seq<Entity>))
    ensures r.0 == text.GetOr("") + Delimiter + username
    ensures |r.1| == |entities.GetOr([])| + 1 && r.1[..|r.1| - 1] == entities.GetOr([])
    ensures r.1[|r.1| - 1] == UsernameEntity(text.GetOr(""), username)
  {
    var t := text.GetOr("");
    (t + Delimiter + username, entities.GetOr([]) + [UsernameEntity(t, username)])
  }

  /**
   * The appended entity covers exactly the trailing username: in the UTF-16 encoding of the
   * resulting text, the span it names is the encoding of the username and ends the text.
   */
  lemma {:induction false} AppendedEntityCoversUsername(text: Option<string>, entities: Option<seq<Entity>>, username: string)
    ensures var (s, es) := AppendSwiperUsername(text, entities, username);
      var e := es[|es| - 1];
      var units := Utf16Encode(s);
      0 <= e.offset && e.offset + e.length == |units| == Utf16Len(s) &&
      units[e.offset..e.offset + e.length] == Utf16Encode(username) && e.kind == "italic"
  {
    var t := text.GetOr("");
    var (s, es) := AppendSwiperUsername(text, entities, username);
    Utf16EncodeConcat(t + Delimiter, username);
    Utf16EncodeConcat(t, Delimiter);
    Utf16LenIsEncodedLength(t);
    Utf16LenIsEncodedLength(Delimiter);
    Utf16LenIsEncodedLength(username);
    Utf16LenIsEncodedLength(s);
  }
}
