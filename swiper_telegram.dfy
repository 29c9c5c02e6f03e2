/**
 * The per-update bookkeeping of the shared swiper conversation: a `Swiper` per chat whose item
 * is read lazily and written back at the end of the update, the `SwiperUpdate` that caches
 * swipers by the text of their chat id, and the `SwiperPersistence` that lends PTB the
 * conversation states and chat data kept inside the current swiper's item.
 */
module SwiperTelegram {
  import opened Wrappers
  import opened Text
  import opened Utils
  import opened ChatDataStore

  /** A swiper: one chat as seen by one bot, with its table item once read. */
  class Swiper {
    const chatId: PyValue
    const botId: int
    const table: ChatDataTable
    var data: Option<Record>

    constructor (chatId: PyValue, botId: int, table: ChatDataTable)
      ensures this.chatId == chatId && this.botId == botId && this.table == table && data.None?
    {
      this.chatId := chatId;
      this.botId := botId;
      this.table := table;
      data := None;
    }

    /** `is_initialized`: the item has been read. */
    predicate IsInitialized()
      reads this
    {
      data.Some?
    }

    /** The `swiper_data` property: the first access reads the table, every later one returns the same item. */
    method SwiperData() returns (d: Record)
      modifies this, table
      ensures data == Some(d)
      ensures old(data).Some? ==> d == old(data).value && table.State() == old(table.State())
      ensures old(data).None? ==> d == Stored(old(table.rows), chatId, PyInt(botId)) && table.State() == old(table.State()).(gets := old(table.gets) + 1)
    {
      if data.None? {
        var item := table.ReadSwiperChatData(chatId, PyInt(botId));
        data := Some(item);
      }
      d := data.value;
    }

    /**
     * The `swiper_state` getter. It goes to the cached item directly, not through the property,
     * so on a swiper not yet read it raises.
     */
    method SwiperState() returns (r: CallResult<Json>)
      ensures r.Raised? <==> data.None?
      ensures data.Some? ==> r == Returned(if SwiperStateField in data.value then Some(data.value[SwiperStateField]) else None)
    {
      if data.None? {
        return Raised;
      }
      if SwiperStateField in data.value {
        r := Returned(Some(data.value[SwiperStateField]));
      } else {
        r := Returned(None);
      }
    }

    /** The `swiper_state` setter: raises on a swiper not yet read, otherwise sets the one field. */
    method SetSwiperState(state: Json) returns (raised: bool)
      modifies this
      ensures raised <==> old(data).None?
      ensures data == if old(data).None? then None else Some(old(data).value[SwiperStateField := state])
    {
      if data.None? {
        return true;
      }
      data := Some(data.value[SwiperStateField := state]);
      raised := false;
    }

    /** `persist`: the item is written back only when it was read; `ok` is false where the put raises. */
    method Persist() returns (ok: bool)
      modifies table
      ensures data.None? ==> ok && table.State() == old(table.State())
      ensures data.Some? ==> ok == Put(old(table.State()), data.value).Some? && table.State() == Put(old(table.State()), data.value).GetOr(old(table.State()))
    {
      ok := true;
      if IsInitialized() {
        ok := table.WriteSwiperChatData(data.value);
      }
    }
  }

  /** The conversation object: the update being processed, while there is one. */
  class BaseSwiperConversation {
    var swiperUpdate: SwiperUpdate?

    constructor ()
      ensures swiperUpdate == null
    {
      swiperUpdate := null;
    }
  }

  /** One update being processed: the swipers met so far, keyed by the text of their chat id. */
  class SwiperUpdate {
    const conversation: BaseSwiperConversation
    const table: ChatDataTable
    const botId: int
    /** `effective_chat.to_dict()`; the constructor reads the effective chat's id, so there is one. */
    const effectiveChat: Json
    var swipers: map<string, Swiper>
    /** The cache's keys in insertion order, the order `_swipers.values()` visits them. */
    var order: seq<string>
    var current: Swiper

    /** Each key once, in the cache exactly when in `order`; each swiper is of this bot and table, under its own key. */
    ghost predicate Valid()
      reads this, swipers.Values
    {
      (forall k :: k in swipers <==> k in order) &&
      (forall i, j :: 0 <= i < j < |order| ==> order[i] != order[j]) &&
      (forall k :: k in swipers ==> swipers[k].table == table && swipers[k].botId == botId && StrOf(swipers[k].chatId) == k) &&
      current in swipers.Values && current.table == table
    }

    /** The constructor: the cache starts with the swiper of the effective chat, unread. */
    constructor (conversation: BaseSwiperConversation, table: ChatDataTable, botId: int, effectiveChatId: int, effectiveChat: Json)
      ensures Valid()
      ensures this.conversation == conversation && this.table == table && this.botId == botId && this.effectiveChat == effectiveChat
      ensures fresh(current) && current.chatId == PyInt(effectiveChatId) && current.data.None?
      ensures swipers == map[StrOf(PyInt(effectiveChatId)) := current] && order == [StrOf(PyInt(effectiveChatId))]
    {
      this.conversation := conversation;
      this.table := table;
      this.botId := botId;
      this.effectiveChat := effectiveChat;
      var s := new Swiper(PyInt(effectiveChatId), botId, table);
      current := s;
      swipers := map[StrOf(PyInt(effectiveChatId)) := s];
      order := [StrOf(PyInt(effectiveChatId))];
      new;
      assert swipers[StrOf(PyInt(effectiveChatId))] == current;
    }

    /**
     * `get_swiper(chat_id)`: the cached swiper under `str(chat_id)`, or a new unread one that is
     * cached from then on. Chat ids with the same text share one swiper.
     */
    method GetSwiper(chatId: PyValue) returns (s: Swiper)
      requires Valid()
      modifies this
      ensures Valid() && current == old(current)
      ensures StrOf(chatId) in swipers && swipers[StrOf(chatId)] == s
      ensures StrOf(chatId) in old(swipers) ==> s == old(swipers)[StrOf(chatId)] && swipers == old(swipers) && order == old(order)
      ensures StrOf(chatId) !in old(swipers) ==>
        fresh(s) && s.chatId == chatId && s.botId == botId && s.table == table && s.data.None? &&
        swipers == old(swipers)[StrOf(chatId) := s] && order == old(order) + [StrOf(chatId)]
    {
      var key := StrOf(chatId);
      if key in swipers {
        return swipers[key];
      }
      ghost var k0 :| k0 in swipers && swipers[k0] == current;
      s := new Swiper(chatId, botId, table);
      swipers := swipers[key := s];
      order := order + [key];
      assert swipers[k0] == current;
    }

    /** What `persist` writes for each swiper under `keys`, in order: its item once read, nothing otherwise. */
    function Pending(keys: seq<string>): (r: seq<Option<Record>>)
      reads this, swipers.Values
      ensures |r| == |keys|
      decreases |keys|
    {
      if keys == [] then []
      else Pending(keys[..|keys| - 1]) + [if keys[|keys| - 1] in swipers then swipers[keys[|keys| - 1]].data else None]
    }

    /**
     * `persist_swipers`: the effective chat is stored under `chat` in the current swiper's item
     * when that item was read, then every cached swiper is persisted in insertion order; a
     * refused put raises and ends the loop (`ok` false).
     */
    method PersistSwipers() returns (ok: bool)
      requires Valid()
      modifies current, table
      ensures Valid()
      ensures current.data == if old(current.data).Some? then Some(old(current.data).value[ChatField := effectiveChat]) else None
      ensures (table.State(), ok) == PutAll(old(table.State()), Pending(order))
    {
      if current.IsInitialized() {
        var d := current.SwiperData();
        current.data := Some(d[ChatField := effectiveChat]);
      }
      assert Valid();
      ghost var t := table.State();
      ok := PersistEach();
      assert (table.State(), ok) == PutAll(t, Pending(order));
    }

    /** The loop of `persist_swipers`: `persist` on every cached swiper, in insertion order, until a put raises. */
    method PersistEach() returns (ok: bool)
      requires Valid()
      modifies table
      ensures (table.State(), ok) == PutAll(old(table.State()), Pending(order))
    {
      ghost var t0 := table.State();
      ghost var items := Pending(order);
      var i := 0;
      while i < |order|
        invariant 0 <= i <= |order|
        invariant (table.State(), true) == PutAll(t0, items[..i])
        invariant Pending(order) == items
        modifies table
      {
        var written := PersistAt(i, t0, items);
        if !written {
          return false;
        }
        i := i + 1;
      }
      assert items[..|order|] == items;
      ok := true;
    }

    /** One step of `persist_swipers`' loop: the swiper at position `i` persisted after every earlier put went through. */
    method PersistAt(i: nat, ghost t0: TableState, ghost items: seq<Option<Record>>) returns (written: bool)
      requires Valid() && i < |order| && items == Pending(order)
      requires (table.State(), true) == PutAll(t0, items[..i])
      modifies table
      ensures written ==> (table.State(), true) == PutAll(t0, items[..i + 1])
      ensures !written ==> (table.State(), false) == PutAll(t0, items)
      ensures Pending(order) == items
    {
      var s := swipers[order[i]];
      ghost var before := table.State();
      written := s.Persist();
      PendingAt(order, i);
      assert items[i] == s.data;
      if !written {
        assert items[i].Some? && Put(before, items[i].value).None?;
        PutAllRefusedAt(t0, items, i);
      } else {
        PutAllAcceptedAt(t0, items, i);
      }
    }

    /** The entry of `Pending` at a position is the data of the swiper under that key. */
    lemma {:induction false} PendingAt(keys: seq<string>, i: nat)
      requires i < |keys|
      ensures Pending(keys)[i] == if keys[i] in swipers then swipers[keys[i]].data else None
      decreases |keys|
    {
      if i < |keys| - 1 {
        PendingAt(keys[..|keys| - 1], i);
      }
    }

    /** `__enter__`: the conversation now knows this update. */
    method Enter() returns (r: SwiperUpdate)
      modifies conversation
      ensures r == this && conversation.swiperUpdate == this
    {
      conversation.swiperUpdate := this;
      r := this;
    }

    /** `__exit__`: the conversation forgets the update, then every swiper is persisted. */
    method Exit() returns (ok: bool)
      requires Valid()
      modifies conversation, current, table
      ensures Valid() && conversation.swiperUpdate == null
      ensures current.data == if old(current.data).Some? then Some(old(current.data).value[ChatField := effectiveChat]) else None
      ensures (table.State(), ok) == PutAll(old(table.State()), Pending(order))
    {
      conversation.swiperUpdate := null;
      ok := PersistSwipers();
    }
  }

  /**
   * PTB conversation keys are tuples of ints, kept in the item under their `repr`: `()`,
   * `(5,)`, `(1, 2)`. These are the pieces joined with `,` between the parentheses.
   */
  function ReprPieces(key: seq<int>): (r: seq<string>)
    ensures |key| != 1 ==> |r| == |key|
  {
    if |key| == 0 then []
    else if |key| == 1 then [IntToString(key[0]), ""]
    else SpacedPieces(key)
  }

  /** The pieces of a tuple of two or more, `a`, ` b`, ` c`…: every int after the first with a space in front. */
  function SpacedPieces(key: seq<int>): (r: seq<string>)
    requires |key| >= 1
    ensures |r| == |key|
    decreases |key|
  {
    if |key| == 1 then [IntToString(key[0])]
    else SpacedPieces(key[..|key| - 1]) + [" " + IntToString(key[|key| - 1])]
  }

  /** No piece holds a comma, the first is a non-empty number and every later one starts with a space. */
  lemma {:induction false} SpacedPiecesShape(key: seq<int>)
    requires |key| >= 1
    ensures var r := SpacedPieces(key);
      r[0] == IntToString(key[0]) && r[0] != "" &&
      (forall k :: 0 <= k < |r| ==> ',' !in r[k]) &&
      (forall k :: 1 <= k < |r| ==> r[k] != "" && r[k][0] == ' ')
    decreases |key|
  {
    NoComma(key[|key| - 1]);
    if |key| > 1 {
      var init := key[..|key| - 1];
      SpacedPiecesShape(init);
      assert init[0] == key[0];
      var r := SpacedPieces(key);
      var p := " " + IntToString(key[|key| - 1]);
      assert r == SpacedPieces(init) + [p];
      assert ',' !in p;
    }
  }

  /** `repr(key)` of a tuple of ints. */
  function KeyRepr(key: seq<int>): string {
    "(" + Join(",", ReprPieces(key)) + ")"
  }

  /** The ints of pieces `a`, ` b`, ` c`…: the first piece is a number, every later one a space and a number. */
  function ParsePieces(parts: seq<string>): Option<seq<int>>
    decreases |parts|
  {
    if parts == [] then Some([])
    else
      var n := |parts| - 1;
      var p := parts[n];
      match ParsePieces(parts[..n])
      case None => None
      case Some(xs) =>
        if n == 0 then (match ParseInt(p) case Some(x) => Some(xs + [x]) case None => None)
        else if |p| > 0 && p[0] == ' ' then (match ParseInt(p[1..]) case Some(x) => Some(xs + [x]) case None => None)
        else None
  }

  /** Reading `(…)` as a tuple of ints. */
  function KeyParse(s: string): Option<seq<int>> {
    if |s| < 2 || s[0] != '(' || s[|s| - 1] != ')' then None
    else
      var inner := s[1..|s| - 1];
      if inner == "" then Some([])
      else
        var parts := Split(inner, ',');
        if |parts| == 2 && parts[1] == "" then (match ParseInt(parts[0]) case Some(x) => Some([x]) case None => None)
        else if |parts| >= 2 then ParsePieces(parts)
        else None
  }

  /**
   * `eval(s)` of a stored key, for the text `repr` makes of a tuple of ints; `None` where the
   * text is not such a `repr`.
   */
  function KeyEval(s: string): (r: Option<seq<int>>)
    ensures r.Some? ==> KeyRepr(r.value) == s
  {
    var t := KeyParse(s);
    if t.Some? && KeyRepr(t.value) == s then t else None
  }

  lemma NoComma(i: int)
    ensures ',' !in IntToString(i) && ' ' !in IntToString(i) && IntToString(i) != ""
  {
    IntToStringChars(i);
  }

  /** A single piece is read as a number. */
  lemma ParsePiecesFirst(p: string, x: int)
    requires ParseInt(p) == Some(x)
    ensures ParsePieces([p]) == Some([x])
  {
    assert [p][..0] == [];
    assert ParsePieces([]) == Some([]);
    assert [] + [x] == [x];
  }

  /** A later piece is read as a space and a number. */
  lemma ParsePiecesLater(parts: seq<string>, p: string, xs: seq<int>, x: int)
    requires parts != [] && ParsePieces(parts) == Some(xs)
    requires |p| > 0 && p[0] == ' ' && ParseInt(p[1..]) == Some(x)
    ensures ParsePieces(parts + [p]) == Some(xs + [x])
  {
    assert (parts + [p])[..|parts|] == parts;
  }

  /** Spaced pieces read back as the ints they were made of. */
  lemma {:induction false} ParseSpacedPieces(key: seq<int>)
    requires |key| >= 1
    ensures ParsePieces(SpacedPieces(key)) == Some(key)
    decreases |key|
  {
    if |key| == 1 {
      ParseSpacedOne(key[0]);
      assert key == [key[0]];
    } else {
      var init, x := key[..|key| - 1], key[|key| - 1];
      assert key == init + [x];
      ParseSpacedPieces(init);
      ParseSpacedStep(init, x);
    }
  }

  lemma ParseSpacedOne(x: int)
    ensures ParsePieces(SpacedPieces([x])) == Some([x])
  {
    ParseIntToString(x);
    ParsePiecesFirst(IntToString(x), x);
    assert SpacedPieces([x]) == [IntToString(x)];
  }

  lemma ParseSpacedStep(init: seq<int>, x: int)
    requires |init| >= 1 && ParsePieces(SpacedPieces(init)) == Some(init)
    ensures ParsePieces(SpacedPieces(init + [x])) == Some(init + [x])
  {
    var p := " " + IntToString(x);
    SpacedPiecesSnoc(init, x);
    SpacedPieceValue(x);
    ParsePiecesLater(SpacedPieces(init), p, init, x);
  }

  /** One more int adds one more spaced piece. */
  lemma SpacedPiecesSnoc(init: seq<int>, x: int)
    requires |init| >= 1
    ensures SpacedPieces(init + [x]) == SpacedPieces(init) + [" " + IntToString(x)]
  {
    assert (init + [x])[..|init|] == init;
  }

  /** A spaced piece is a space and the int's decimal text. */
  lemma SpacedPieceValue(x: int)
    ensures var p := " " + IntToString(x);
      |p| > 0 && p[0] == ' ' && ParseInt(p[1..]) == Some(x)
  {
    var p := " " + IntToString(x);
    assert p[1..] == IntToString(x);
    ParseIntToString(x);
  }

  /** `repr(key)` is its joined pieces in parentheses. */
  lemma ReprInner(key: seq<int>)
    ensures var s := KeyRepr(key);
      |s| >= 2 && s[0] == '(' && s[|s| - 1] == ')' && s[1..|s| - 1] == Join(",", ReprPieces(key))
  {
  }

  /** A one-tuple `(x,)` reads back as itself. */
  lemma KeyParseOne(key: seq<int>)
    requires |key| == 1
    ensures KeyParse(KeyRepr(key)) == Some(key)
  {
    var ps := ReprPieces(key);
    ReprInner(key);
    NoComma(key[0]);
    SplitJoin(ps, ',');
    ParseIntToString(key[0]);
    assert Join(",", ps) == IntToString(key[0]) + ",";
    assert Split(Join(",", ps), ',') == ps;
    assert key == [key[0]];
  }

  /** A tuple of two or more ints reads back as itself. */
  lemma KeyParseMany(key: seq<int>)
    requires |key| >= 2
    ensures KeyParse(KeyRepr(key)) == Some(key)
  {
    var ps := ReprPieces(key);
    assert ps == SpacedPieces(key);
    ReprInner(key);
    SpacedPiecesShape(key);
    SplitJoin(ps, ',');
    assert Join(",", ps) != "" by {
      JoinKeepsFirst(ps);
    }
    assert ps[1] != "";
    ParseSpacedPieces(key);
  }

  /** `eval(repr(key)) == key`: a conversation key written into the item comes back as the same tuple. */
  lemma KeyRoundTrip(key: seq<int>)
    ensures KeyEval(KeyRepr(key)) == Some(key)
  {
    if |key| == 0 {
      ReprInner(key);
    } else if |key| == 1 {
      KeyParseOne(key);
    } else {
      KeyParseMany(key);
    }
  }

  lemma {:induction false} JoinKeepsFirst(ps: seq<string>)
    requires |ps| > 0
    ensures |Join(",", ps)| >= |ps[0]|
    decreases |ps|
  {
    if |ps| > 1 {
      JoinKeepsFirst(ps[..|ps| - 1]);
    }
  }

  /** What PTB holds in memory: per conversation name, the state of each conversation key. */
  type Conversations = map<string, map<seq<int>, Json>>

  /** The states of one stored conversation, keyed by the tuples their texts `eval` to; `None` where loading raises. */
  function LoadStates(j: Json): Option<map<seq<int>, Json>> {
    match j
    case JObj(states) =>
      if forall s :: s in states ==> KeyEval(s).Some? then
        KeyEvalCanonical();
        Some(LoadedPart(KeyEval, KeyRepr, states, states.Keys))
      else None
    case _ => None
  }

  /**
   * Loading is exact: it succeeds on a dict whose every key is a `repr`, every stored state is
   * then found under the tuple its text reads as, and every loaded tuple came from its `repr`.
   */
  lemma LoadStatesMeaning(j: Json)
    ensures LoadStates(j).Some? <==> j.JObj? && forall s :: s in j.fields ==> KeyEval(s).Some?
    ensures var r := LoadStates(j);
      r.Some? ==> forall s :: s in j.fields ==> KeyEval(s).value in r.value && r.value[KeyEval(s).value] == j.fields[s]
    ensures var r := LoadStates(j);
      r.Some? ==> forall key :: key in r.value ==> KeyRepr(key) in j.fields && r.value[key] == j.fields[KeyRepr(key)]
  {
    if LoadStates(j).Some? {
      KeyEvalCanonical();
      LoadedPartMeaning(KeyEval, KeyRepr, j.fields, j.fields.Keys);
    }
  }

  /** A key reader that accepts only what the writer writes: whatever it reads is written back as the text it came from. */
  ghost predicate Canonical(eval: string -> Option<seq<int>>, repr: seq<int> -> string) {
    forall s :: eval(s).Some? ==> repr(eval(s).value) == s
  }

  /** `eval` accepts only the canonical `repr` of a tuple. */
  lemma KeyEvalCanonical()
    ensures Canonical(KeyEval, KeyRepr)
  {
    forall s | KeyEval(s).Some?
      ensures KeyRepr(KeyEval(s).value) == s
    {
    }
  }

  /** The states under the stored keys in `done`, keyed by the tuples `eval` reads from them. */
  function LoadedPart(eval: string -> Option<seq<int>>, repr: seq<int> -> string, states: map<string, Json>, done: set<string>):
    map<seq<int>, Json>
    requires Canonical(eval, repr)
    requires forall s :: s in done ==> eval(s).Some?
  {
    map s | s in done && s in states :: eval(s).value := states[s]
  }

  /** Every stored key loaded is found under its tuple, and every tuple comes from the text written for it. */
  lemma LoadedPartMeaning(eval: string -> Option<seq<int>>, repr: seq<int> -> string, states: map<string, Json>, done: set<string>)
    requires Canonical(eval, repr)
    requires forall s :: s in done ==> eval(s).Some?
    ensures var r := LoadedPart(eval, repr, states, done);
      forall s :: s in done && s in states ==> eval(s).value in r && r[eval(s).value] == states[s]
    ensures var r := LoadedPart(eval, repr, states, done);
      forall key :: key in r ==> repr(key) in done && repr(key) in states && r[key] == states[repr(key)]
  {
    var r := LoadedPart(eval, repr, states, done);
    forall key | key in r
      ensures repr(key) in done && repr(key) in states && r[key] == states[repr(key)]
    {
      var s :| s in done && s in states && eval(s).value == key;
    }
  }

  /** Loading one more stored key adds exactly its tuple. */
  lemma LoadedPartStep(eval: string -> Option<seq<int>>, repr: seq<int> -> string, states: map<string, Json>, done: set<string>, s: string)
    requires Canonical(eval, repr)
    requires forall x :: x in done ==> eval(x).Some?
    requires eval(s).Some? && s in states && s !in done
    ensures LoadedPart(eval, repr, states, done + {s}) == LoadedPart(eval, repr, states, done)[eval(s).value := states[s]]
  {
    var a := LoadedPart(eval, repr, states, done + {s});
    var b := LoadedPart(eval, repr, states, done)[eval(s).value := states[s]];
    forall key | key in a
      ensures key in b && a[key] == b[key]
    {
      var x :| x in done + {s} && x in states && eval(x).value == key;
      assert x == repr(key);
    }
    forall key | key in b
      ensures key in a
    {
    }
  }

  /** One round of the loading loop: the key taken from the ones left is loaded. */
  lemma LoadedOneMore(states: map<string, Json>, todo: set<string>, s: string)
    requires todo <= states.Keys && s in todo && KeyEval(s).Some?
    requires forall x :: x in states && x !in todo ==> KeyEval(x).Some?
    ensures forall x :: x in states && x !in todo - {s} ==> KeyEval(x).Some?
    ensures Canonical(KeyEval, KeyRepr)
    ensures LoadedPart(KeyEval, KeyRepr, states, states.Keys - (todo - {s})) ==
      LoadedPart(KeyEval, KeyRepr, states, states.Keys - todo)[KeyEval(s).value := states[s]]
  {
    KeyEvalCanonical();
    assert states.Keys - (todo - {s}) == (states.Keys - todo) + {s};
    LoadedPartStep(KeyEval, KeyRepr, states, states.Keys - todo, s);
  }

  /** Every name's states emptied, the names kept: the clearing loop of `init_from_swiper_data`. */
  function Cleared(convs: Conversations): (r: Conversations)
    ensures r.Keys == convs.Keys && forall n :: n in r ==> r[n] == map[]
  {
    map n | n in convs :: map[]
  }

  /** `setdefault(f, {})` on an item. */
  function WithDefault(d: Record, f: string): (r: Record)
    ensures f in r && (f in d ==> r == d) && (f !in d ==> r == d[f := JObj(map[])])
  {
    if f in d then d else d[f := JObj(map[])]
  }

  /** The states of one conversation, keyed by tuple. */
  type States = map<seq<int>, Json>

  /** The cleared conversations with the stored names in `done` loaded by `load`. */
  function ReloadedPart(load: Json -> Option<States>, cleared: Conversations, stored: map<string, Json>, done: set<string>): Conversations
    requires forall n :: n in done ==> n in stored && load(stored[n]).Some?
  {
    map n | n in cleared.Keys + done :: if n in done then load(stored[n]).value else cleared[n]
  }

  /** Loading one more stored name sets exactly that name. */
  lemma ReloadedPartStep(load: Json -> Option<States>, cleared: Conversations, stored: map<string, Json>, done: set<string>, n: string)
    requires forall x :: x in done ==> x in stored && load(stored[x]).Some?
    requires n in stored && load(stored[n]).Some? && n !in done
    ensures ReloadedPart(load, cleared, stored, done + {n}) == ReloadedPart(load, cleared, stored, done)[n := load(stored[n]).value]
  {
  }

  /**
   * The conversations after reloading from the stored ones, each loaded by `load`: every
   * stored name holds its loaded states, names known before and not stored are left empty;
   * `None` where some stored conversation cannot be loaded.
   */
  function ReloadWith(load: Json -> Option<States>, prev: Conversations, stored: map<string, Json>): (r: Option<Conversations>)
    ensures r.Some? <==> forall n :: n in stored ==> load(stored[n]).Some?
    ensures r.Some? ==> forall n :: n in r.value <==> n in prev || n in stored
    ensures r.Some? ==> forall n :: n in stored ==> r.value[n] == load(stored[n]).value
    ensures r.Some? ==> forall n :: n in prev && n !in stored ==> r.value[n] == map[]
  {
    if forall n :: n in stored ==> load(stored[n]).Some? then
      Some(ReloadedPart(load, Cleared(prev), stored, stored.Keys))
    else None
  }

  /** A stored conversation that cannot be loaded makes the whole reload raise. */
  lemma ReloadFails(prev: Conversations, stored: map<string, Json>, name: string)
    requires name in stored && LoadStates(stored[name]).None?
    ensures Reload(prev, stored).None?
  {
  }

  /** One round of the reloading loop: the name taken from the ones left is loaded. */
  lemma ReloadedOneMore(cleared: Conversations, stored: map<string, Json>, names: set<string>, name: string)
    requires names <= stored.Keys && name in names && LoadStates(stored[name]).Some?
    requires forall n :: n in stored && n !in names ==> LoadStates(stored[n]).Some?
    ensures forall n :: n in stored && n !in names - {name} ==> LoadStates(stored[n]).Some?
    ensures ReloadedPart(LoadStates, cleared, stored, stored.Keys - (names - {name})) ==
      ReloadedPart(LoadStates, cleared, stored, stored.Keys - names)[name := LoadStates(stored[name]).value]
  {
    assert stored.Keys - (names - {name}) == (stored.Keys - names) + {name};
    ReloadedPartStep(LoadStates, cleared, stored, stored.Keys - names, name);
  }

  /** With every stored name loaded into emptied conversations, the loop has built the reload. */
  lemma ReloadedAll(cleared: Conversations, stored: map<string, Json>)
    requires forall n :: n in cleared ==> cleared[n] == map[]
    requires forall n :: n in stored ==> LoadStates(stored[n]).Some?
    ensures Reload(cleared, stored) == Some(ReloadedPart(LoadStates, cleared, stored, stored.Keys))
  {
    assert Cleared(cleared) == cleared;
  }

  /** Reloading does not depend on the states held before, only on the names. */
  lemma ReloadOfCleared(load: Json -> Option<States>, prev: Conversations, stored: map<string, Json>)
    ensures ReloadWith(load, Cleared(prev), stored) == ReloadWith(load, prev, stored)
  {
    assert Cleared(Cleared(prev)) == Cleared(prev);
  }

  /** The reload `init_from_swiper_data` performs, with keys `eval`-ed. */
  function Reload(prev: Conversations, stored: map<string, Json>): Option<Conversations> {
    ReloadWith(LoadStates, prev, stored)
  }

  /**
   * `update_conversation(name, key, new_state)` for a state, on the item: the entry under
   * `repr(key)` is set, creating the conversations dict and the name's dict when absent;
   * `None` where one of them is not a dict (the call raises and the item is left as it was).
   */
  function SetConversation(d: Record, name: string, key: string, state: Json): (r: Option<Record>)
  {
    match Field(WithDefault(d, PtbConversationsField), PtbConversationsField)
    case JObj(convs) =>
      (match (if name in convs then convs[name] else JObj(map[]))
       case JObj(states) => Some(d[PtbConversationsField := JObj(convs[name := JObj(states[key := state])])])
       case _ => None)
    case _ => None
  }

  /**
   * `update_conversation(name, key, None)` on the item: the entry under `repr(key)` is removed,
   * and nothing is added when the conversations dict, the name's dict or the entry is absent;
   * `None` where one of them is present but not a dict.
   */
  function PopConversation(d: Record, name: string, key: string): (r: Option<Record>)
  {
    if PtbConversationsField !in d then Some(d)
    else match d[PtbConversationsField]
      case JObj(convs) =>
        if name !in convs then Some(d)
        else (match convs[name]
          case JObj(states) => if key in states then Some(d[PtbConversationsField := JObj(convs[name := JObj(states - {key})])]) else Some(d)
          case _ => None)
      case _ => None
  }

  /** The stored conversations of an item, as `init_from_swiper_data` iterates them after `setdefault`; `None` where that value is not a dict. */
  function StoredConversations(d: Record): Option<map<string, Json>> {
    match WithDefault(d, PtbConversationsField)[PtbConversationsField]
    case JObj(convs) => Some(convs)
    case _ => None
  }

  /** A loadable conversation stays loadable when a state is set under a `repr`, and then holds it under the tuple. */
  lemma StatesSet(states: map<string, Json>, key: seq<int>, state: Json)
    requires LoadStates(JObj(states)).Some?
    ensures var r := LoadStates(JObj(states[KeyRepr(key) := state]));
      r.Some? && key in r.value && r.value[key] == state
  {
    KeyRoundTrip(key);
    LoadStatesMeaning(JObj(states[KeyRepr(key) := state]));
    var states' := states[KeyRepr(key) := state];
    forall s | s in states'
      ensures KeyEval(s).Some?
    {
      if s != KeyRepr(key) {
        assert s in states;
      }
    }
  }

  /** A loadable conversation stays loadable when the state under a `repr` is removed, and then lacks the tuple. */
  lemma StatesPop(states: map<string, Json>, key: seq<int>)
    requires LoadStates(JObj(states)).Some?
    ensures var r := LoadStates(JObj(states - {KeyRepr(key)}));
      r.Some? && key !in r.value
  {
    KeyRoundTrip(key);
    LoadStatesMeaning(JObj(states - {KeyRepr(key)}));
    var states' := states - {KeyRepr(key)};
    forall s | s in states'
      ensures KeyEval(s).Some?
    {
      assert s in states;
    }
  }

  /** Replacing one stored conversation by a loadable one changes the reload at that name only. */
  lemma ReloadReplace(load: Json -> Option<States>, prev: Conversations, stored: map<string, Json>, name: string, j: Json)
    requires ReloadWith(load, prev, stored).Some? && load(j).Some?
    ensures var r := ReloadWith(load, prev, stored[name := j]);
      r.Some? && name in r.value && r.value[name] == load(j).value &&
      forall n :: n in r.value && n != name ==> n in ReloadWith(load, prev, stored).value && r.value[n] == ReloadWith(load, prev, stored).value[n]
  {
    var stored' := stored[name := j];
    forall n | n in stored'
      ensures load(stored'[n]).Some?
    {
      if n != name {
        assert stored'[n] == stored[n];
      }
    }
  }

  /** The stored conversations after `update_conversation(name, key, state)` with a state. */
  function SetConversations(convs: map<string, Json>, name: string, key: seq<int>, state: Json): map<string, Json>
    requires name in convs ==> convs[name].JObj?
  {
    convs[name := JObj((if name in convs then convs[name].fields else map[])[KeyRepr(key) := state])]
  }

  /** Reloading after a set holds the state under the tuple for that name; other names are as before. */
  lemma ReloadSet(prev: Conversations, convs: map<string, Json>, name: string, key: seq<int>, state: Json)
    requires name in convs ==> convs[name].JObj?
    requires Reload(prev, convs).Some?
    ensures var r := Reload(prev, SetConversations(convs, name, key, state));
      r.Some? && name in r.value && key in r.value[name] && r.value[name][key] == state &&
      (forall n :: n in r.value && n != name ==> n in Reload(prev, convs).value && r.value[n] == Reload(prev, convs).value[n])
  {
    var fields := if name in convs then convs[name].fields else map[];
    if name in convs {
      assert convs[name] == JObj(fields);
      assert LoadStates(convs[name]).Some?;
    } else {
      LoadStatesMeaning(JObj(fields));
    }
    StatesSet(fields, key, state);
    ReloadReplace(LoadStates, prev, convs, name, JObj(fields[KeyRepr(key) := state]));
  }

  /**
   * Setting a state and reloading gives PTB that state under the same tuple key; the other
   * names are reloaded as they were stored, and setting never makes a loadable item unloadable.
   */
  lemma SetThenReload(prev: Conversations, d: Record, name: string, key: seq<int>, state: Json)
    requires SetConversation(d, name, KeyRepr(key), state).Some?
    requires StoredConversations(d).Some? && Reload(prev, StoredConversations(d).value).Some?
    ensures var d' := SetConversation(d, name, KeyRepr(key), state).value;
      StoredConversations(d').Some? &&
      var r := Reload(prev, StoredConversations(d').value);
      r.Some? && name in r.value && key in r.value[name] && r.value[name][key] == state &&
      (forall n :: n in r.value && n != name ==> n in Reload(prev, StoredConversations(d).value).value && r.value[n] == Reload(prev, StoredConversations(d).value).value[n])
  {
    var convs := StoredConversations(d).value;
    var d' := SetConversation(d, name, KeyRepr(key), state).value;
    assert name in convs ==> convs[name].JObj?;
    assert StoredConversations(d') == Some(SetConversations(convs, name, key, state));
    ReloadSet(prev, convs, name, key, state);
  }

  /** The stored conversations after `update_conversation(name, key, None)`. */
  function PoppedConversations(convs: map<string, Json>, name: string, key: seq<int>): map<string, Json> {
    if name in convs && convs[name].JObj? && KeyRepr(key) in convs[name].fields
    then convs[name := JObj(convs[name].fields - {KeyRepr(key)})]
    else convs
  }

  /** Reloading after a pop holds no state under the tuple for that name; other names are as before. */
  lemma ReloadPop(prev: Conversations, convs: map<string, Json>, name: string, key: seq<int>)
    requires Reload(prev, convs).Some?
    ensures var r := Reload(prev, PoppedConversations(convs, name, key));
      r.Some? && (name in r.value ==> key !in r.value[name]) &&
      (forall n :: n in r.value && n != name ==> n in Reload(prev, convs).value && r.value[n] == Reload(prev, convs).value[n])
  {
    if name in convs && convs[name].JObj? && KeyRepr(key) in convs[name].fields {
      var states := convs[name].fields;
      assert LoadStates(convs[name]).Some?;
      StatesPop(states, key);
      ReloadReplace(LoadStates, prev, convs, name, JObj(states - {KeyRepr(key)}));
    } else if name in convs {
      assert LoadStates(convs[name]).Some?;
      LoadStatesMeaning(convs[name]);
    }
  }

  /**
   * Clearing a state and reloading leaves no state under that key for the name, and the other
   * names are reloaded as they were stored.
   */
  lemma PopThenReload(prev: Conversations, d: Record, name: string, key: seq<int>)
    requires PopConversation(d, name, KeyRepr(key)).Some?
    requires StoredConversations(d).Some? && Reload(prev, StoredConversations(d).value).Some?
    ensures var d' := PopConversation(d, name, KeyRepr(key)).value;
      StoredConversations(d').Some? &&
      var r := Reload(prev, StoredConversations(d').value);
      r.Some? && (name in r.value ==> key !in r.value[name]) &&
      (forall n :: n in r.value && n != name ==> n in Reload(prev, StoredConversations(d).value).value && r.value[n] == Reload(prev, StoredConversations(d).value).value[n])
  {
    var convs := StoredConversations(d).value;
    var d' := PopConversation(d, name, KeyRepr(key)).value;
    assert StoredConversations(d') == Some(PoppedConversations(convs, name, key));
    ReloadPop(prev, convs, name, key);
  }

  /** The persistence PTB is given: its view of the current swiper's item. */
  class SwiperPersistence {
    /** The swiper whose item `_swiper_data` is; PTB's changes go straight into that item. */
    var owner: Swiper?
    var conversations: Conversations
    /** The one chat id `_ptb_chat_data` has an entry for, if any. */
    var chatDataKey: Option<Json>

    constructor ()
      ensures owner == null && conversations == map[] && chatDataKey.None?
    {
      owner := null;
      conversations := map[];
      chatDataKey := None;
    }

    /** `insert_bot`: the very object given, not a copy, so a dict PTB is handed stays shared with the item. */
    method InsertBot(obj: object) returns (r: object)
      ensures r == obj
    {
      r := obj;
    }

    /** `replace_bot`: the very object given, likewise. */
    method ReplaceBot(obj: object) returns (r: object)
      ensures r == obj
    {
      r := obj;
    }

    /**
     * `get_chat_data`: the chat data of the one chat loaded last, which is the `ptb_chat_data`
     * dict inside the owner's item itself, so PTB's changes to it are changes to the item.
     */
    function GetChatData(): map<Json, Json>
      reads this, owner
    {
      if chatDataKey.Some? && owner != null && owner.data.Some? then map[chatDataKey.value := Field(owner.data.value, PtbChatDataField)]
      else map[]
    }

    /** `get_conversations(name)`: the name's states, created empty when absent. */
    method GetConversations(name: string) returns (r: map<seq<int>, Json>)
      modifies this
      ensures r == if name in old(conversations) then old(conversations)[name] else map[]
      ensures conversations == old(conversations)[name := r]
      ensures owner == old(owner) && chatDataKey == old(chatDataKey)
    {
      if name !in conversations {
        conversations := conversations[name := map[]];
      }
      r := conversations[name];
    }

    /** The inner loop of `init_from_swiper_data`: each stored key `eval`-ed to its tuple. */
    method LoadStatesInto(states: map<string, Json>) returns (r: map<seq<int>, Json>, ok: bool)
      ensures ok <==> LoadStates(JObj(states)).Some?
      ensures ok ==> r == LoadStates(JObj(states)).value
    {
      KeyEvalCanonical();
      var todo := states.Keys;
      r := map[];
      while todo != {}
        invariant todo <= states.Keys
        invariant forall s :: s in states && s !in todo ==> KeyEval(s).Some?
        invariant r == LoadedPart(KeyEval, KeyRepr, states, states.Keys - todo)
        decreases todo
      {
        var s :| s in todo;
        var key := KeyEval(s);
        if key.None? {
          return r, false;
        }
        LoadedOneMore(states, todo, s);
        r := r[key.value := states[s]];
        todo := todo - {s};
      }
      assert states.Keys - todo == states.Keys;
      ok := true;
    }

    /** One round of the outer loop of `init_from_swiper_data`: the states stored under `name` are loaded into it. */
    method LoadConversation(stored: map<string, Json>, ghost cleared: Conversations, ghost names: set<string>, name: string)
      returns (fine: bool)
      requires names <= stored.Keys && name in names
      requires forall n :: n in stored && n !in names ==> LoadStates(stored[n]).Some?
      requires conversations == ReloadedPart(LoadStates, cleared, stored, stored.Keys - names)
      modifies this`conversations
      ensures fine <==> LoadStates(stored[name]).Some?
      ensures fine ==> forall n :: n in stored && n !in names - {name} ==> LoadStates(stored[n]).Some?
      ensures fine ==> conversations == ReloadedPart(LoadStates, cleared, stored, stored.Keys - (names - {name}))
    {
      match stored[name] {
        case JObj(states) =>
          assert stored[name] == JObj(states);
          var loaded, ok := LoadStatesInto(states);
          if !ok {
            return false;
          }
          ReloadedOneMore(cleared, stored, names, name);
          assert loaded == LoadStates(stored[name]).value;
          conversations := conversations[name := loaded];
          fine := true;
        case _ =>
          assert LoadStates(stored[name]).None?;
          fine := false;
      }
    }

    /**
     * The outer loop of `init_from_swiper_data`, over emptied conversations: each stored name
     * is loaded into PTB's conversations; `ok` is false where a load raises.
     */
    method LoadConversationsInto(stored: map<string, Json>) returns (ok: bool)
      requires forall n :: n in conversations ==> conversations[n] == map[]
      modifies this`conversations
      ensures ok <==> Reload(old(conversations), stored).Some?
      ensures ok ==> conversations == Reload(old(conversations), stored).value
    {
      ghost var cleared := conversations;
      var names := stored.Keys;
      while names != {}
        invariant names <= stored.Keys
        invariant forall n :: n in stored && n !in names ==> LoadStates(stored[n]).Some?
        invariant conversations == ReloadedPart(LoadStates, cleared, stored, stored.Keys - names)
        decreases names
      {
        var name :| name in names;
        var fine := LoadConversation(stored, cleared, names, name);
        if !fine {
          ReloadFails(cleared, stored, name);
          return false;
        }
        names := names - {name};
      }
      assert stored.Keys - names == stored.Keys;
      ReloadedAll(cleared, stored);
      ok := true;
    }

    /**
     * `init_from_swiper_data(swiper_data)` for the current swiper's item: the chat id is read
     * (raising when absent), every loaded conversation is emptied, the stored ones are loaded
     * with their keys `eval`-ed, and chat data then holds this chat id's entry only.
     * Missing `ptb_conversations` and `ptb_chat_data` dicts are created in the item.
     */
    method InitFromSwiperData(s: Swiper) returns (ok: bool)
      requires s.data.Some?
      modifies this, s
      ensures owner == s
      ensures var d := old(s.data.value);
        ChatIdField !in d ==> !ok && s.data == old(s.data) && conversations == old(conversations) && chatDataKey == old(chatDataKey)
      ensures var d := old(s.data.value);
        ChatIdField in d && StoredConversations(d).None? ==>
          !ok && s.data == Some(WithDefault(d, PtbConversationsField)) && conversations == Cleared(old(conversations)) && chatDataKey == old(chatDataKey)
      ensures var d := old(s.data.value);
        ChatIdField in d && StoredConversations(d).Some? && Reload(old(conversations), StoredConversations(d).value).None? ==>
          !ok && s.data == Some(WithDefault(d, PtbConversationsField)) && chatDataKey == old(chatDataKey)
      ensures var d := old(s.data.value);
        ChatIdField in d && StoredConversations(d).Some? && Reload(old(conversations), StoredConversations(d).value).Some? ==>
          conversations == Reload(old(conversations), StoredConversations(d).value).value &&
          s.data == Some(WithDefault(WithDefault(d, PtbConversationsField), PtbChatDataField)) &&
          ok == d[ChatIdField].Scalar? &&
          (ok ==> GetChatData() == map[d[ChatIdField] := Field(s.data.value, PtbChatDataField)]) &&
          (!ok ==> GetChatData() == map[])
    {
      owner := s;
      var d := s.data.value;
      if ChatIdField !in d {
        return false;
      }
      var chatId := d[ChatIdField];
      ghost var prev := conversations;
      conversations := Cleared(conversations);
      d := WithDefault(d, PtbConversationsField);
      s.data := Some(d);
      var stored := d[PtbConversationsField];
      if !stored.JObj? {
        return false;
      }
      ReloadOfCleared(LoadStates, prev, stored.fields);
      ok := LoadConversationsInto(stored.fields);
      if !ok {
        return false;
      }
      d := WithDefault(d, PtbChatDataField);
      s.data := Some(d);
      if !chatId.Scalar? {
        chatDataKey := None;
        return false;
      }
      chatDataKey := Some(chatId);
      ok := true;
    }

    /**
     * `update_conversation(name, key, new_state)`: the change goes into the owner's item, not
     * into the loaded conversations (PTB has already changed those). `ok` is false where the call
     * raises: no item loaded yet, or a non-dict on the way; then nothing changes.
     */
    method UpdateConversation(name: string, key: seq<int>, newState: Option<Json>) returns (ok: bool)
      modifies owner
      ensures conversations == old(conversations) && chatDataKey == old(chatDataKey)
      ensures owner == null || old(owner.data).None? ==> !ok && (owner != null ==> owner.data == old(owner.data))
      ensures owner != null && old(owner.data).Some? ==>
        var r := match newState
          case None => PopConversation(old(owner.data).value, name, KeyRepr(key))
          case Some(state) => SetConversation(old(owner.data).value, name, KeyRepr(key), state);
        ok == r.Some? && owner.data == Some(r.GetOr(old(owner.data).value))
    {
      if owner == null || owner.data.None? {
        return false;
      }
      var r := match newState
        case None => PopConversation(owner.data.value, name, KeyRepr(key))
        case Some(state) => SetConversation(owner.data.value, name, KeyRepr(key), state);
      if r.None? {
        return false;
      }
      owner.data := r;
      ok := true;
    }
  }
}
