/**
 * The swiper chat-data table: one item per (chat id, bot id) holding everything the bot keeps
 * about a chat, read whole by `read_swiper_chat_data` and written whole by
 * `write_swiper_chat_data`. Items are JSON-like documents with text keys.
 */
module ChatDataStore {
  import opened Wrappers
  import opened Text
  import opened Utils

  /** A document value: a scalar, a list, or a dict with text keys. */
  datatype Json = Scalar(v: PyValue) | JList(items: seq<Json>) | JObj(fields: map<string, Json>)

  /** One item of the table: a dict at the top level. */
  type Record = map<string, Json>

  /** Field names of an item (the `DdbFields` names and the persistence keys). */
  const ChatIdField: string := "chat_id"
  const BotIdField: string := "bot_id"
  const ChatField: string := "chat"
  const IsSwiperAuthorizedField: string := "is_swiper_authorized"
  const SwiperStateField: string := "swiper_state"
  const PtbConversationsField: string := "ptb_conversations"
  const PtbChatDataField: string := "ptb_chat_data"

  /** Python's `bool(v)`: `None`, `False`, `0`, empty text, empty list and empty dict are falsy. */
  predicate Truthy(j: Json) {
    match j
    case Scalar(PyNone) => false
    case Scalar(PyBool(b)) => b
    case Scalar(PyInt(i)) => i != 0
    case Scalar(PyStr(s)) => s != ""
    case JList(items) => items != []
    case JObj(fields) => fields != map[]
  }

  /** `d.get(f)`: the value under `f`, or `None` when the key is absent. */
  function Field(d: Record, f: string): Json {
    if f in d then d[f] else Scalar(PyNone)
  }

  /** Python's `str(v)` of a scalar. */
  function StrOf(v: PyValue): string {
    match v
    case PyNone => "None"
    case PyBool(b) => if b then "True" else "False"
    case PyInt(i) => IntToString(i)
    case PyStr(s) => s
  }

  /** DynamoDB key attributes are numbers or text. */
  predicate IsKeyValue(v: PyValue) {
    v.PyInt? || v.PyStr?
  }

  /** The key of an item: its chat id and bot id, when both are present and of a key type. */
  function ItemKey(item: Record): Option<(PyValue, PyValue)> {
    if ChatIdField in item && BotIdField in item && item[ChatIdField].Scalar? && item[BotIdField].Scalar?
       && IsKeyValue(item[ChatIdField].v) && IsKeyValue(item[BotIdField].v)
    then Some((item[ChatIdField].v, item[BotIdField].v))
    else None
  }

  /** The item `read_swiper_chat_data` makes up for a chat that has none yet: just the key. */
  function EmptyItem(chatId: PyValue, botId: PyValue): Record {
    map[ChatIdField := Scalar(chatId), BotIdField := Scalar(botId)]
  }

  /** The whole table: its items by key, how many reads it served, and every item put, in order. */
  datatype TableState = TableState(rows: map<(PyValue, PyValue), Record>, gets: nat, puts: seq<Record>)

  /** Every stored item carries the key it is stored under. */
  ghost predicate TableValid(rows: map<(PyValue, PyValue), Record>) {
    forall k :: k in rows ==> ItemKey(rows[k]) == Some(k)
  }

  /** `read_swiper_chat_data(chat_id, bot_id)`: the stored item, or the key alone when none (or an empty one) is stored. */
  function Stored(rows: map<(PyValue, PyValue), Record>, chatId: PyValue, botId: PyValue): (item: Record)
    ensures (chatId, botId) !in rows ==> item == EmptyItem(chatId, botId)
    ensures (chatId, botId) in rows && rows[(chatId, botId)] != map[] ==> item == rows[(chatId, botId)]
  {
    if (chatId, botId) in rows && rows[(chatId, botId)] != map[] then rows[(chatId, botId)] else EmptyItem(chatId, botId)
  }

  /**
   * `write_swiper_chat_data(item)`: a put that replaces the item under the item's own key;
   * `None` where DynamoDB refuses an item without a valid key (the call raises).
   */
  function Put(t: TableState, item: Record): Option<TableState> {
    match ItemKey(item)
    case None => None
    case Some(k) => Some(TableState(t.rows[k := item], t.gets, t.puts + [item]))
  }

  /** What a read hands out always carries the key it was read under, so writing it back is never refused and lands on the same item. */
  lemma StoredCarriesKey(rows: map<(PyValue, PyValue), Record>, chatId: PyValue, botId: PyValue)
    requires TableValid(rows) && IsKeyValue(chatId) && IsKeyValue(botId)
    ensures ItemKey(Stored(rows, chatId, botId)) == Some((chatId, botId))
  {
    if (chatId, botId) in rows && rows[(chatId, botId)] != map[] {
      assert ItemKey(rows[(chatId, botId)]) == Some((chatId, botId));
    } else {
      var e := EmptyItem(chatId, botId);
      assert e[ChatIdField] == Scalar(chatId) && e[BotIdField] == Scalar(botId);
    }
  }

  /** A put keeps every item under its own key, and reading the key back gives the item just put; other items stay. */
  lemma PutThenRead(t: TableState, item: Record, chatId: PyValue, botId: PyValue)
    requires TableValid(t.rows)
    requires Put(t, item).Some?
    ensures TableValid(Put(t, item).value.rows)
    ensures ItemKey(item) == Some((chatId, botId)) ==> Stored(Put(t, item).value.rows, chatId, botId) == item
    ensures ItemKey(item) != Some((chatId, botId)) ==> Stored(Put(t, item).value.rows, chatId, botId) == Stored(t.rows, chatId, botId)
  {
    var k := ItemKey(item).value;
    assert ChatIdField in item;
    assert item != map[];
  }

  /**
   * Puts one after another, stopping at the first refused one (it raises out of the loop);
   * `None` entries are swipers with nothing to write. The flag says whether every put went through.
   */
  function PutAll(t: TableState, items: seq<Option<Record>>): (r: (TableState, bool))
    decreases |items|
  {
    if items == [] then (t, true)
    else
      var (t1, ok) := PutAll(t, items[..|items| - 1]);
      if !ok then (t1, false)
      else match items[|items| - 1]
        case None => (t1, true)
        case Some(item) =>
          match Put(t1, item)
          case None => (t1, false)
          case Some(t2) => (t2, true)
  }

  /** The items that are to be written, in order. */
  function Written(items: seq<Option<Record>>): (r: seq<Record>)
    decreases |items|
  {
    if items == [] then []
    else Written(items[..|items| - 1]) + (if items[|items| - 1].Some? then [items[|items| - 1].value] else [])
  }

  /** Every put goes through exactly when every item to be written has a valid key. */
  lemma {:induction false} PutAllOk(t: TableState, items: seq<Option<Record>>)
    ensures PutAll(t, items).1 <==> forall k :: 0 <= k < |items| && items[k].Some? ==> ItemKey(items[k].value).Some?
    decreases |items|
  {
    if items != [] {
      var init := items[..|items| - 1];
      PutAllOk(t, init);
      assert forall k :: 0 <= k < |init| ==> init[k] == items[k];
    }
  }

  /**
   * When every put goes through, exactly the items to be written are put, once each and in
   * order; nothing is read, and a valid table stays valid.
   */
  lemma {:induction false} PutAllPuts(t: TableState, items: seq<Option<Record>>)
    requires PutAll(t, items).1
    ensures PutAll(t, items).0.puts == t.puts + Written(items)
    ensures PutAll(t, items).0.gets == t.gets
    ensures TableValid(t.rows) ==> TableValid(PutAll(t, items).0.rows)
    decreases |items|
  {
    if items != [] {
      var init := items[..|items| - 1];
      PutAllPuts(t, init);
      var t1 := PutAll(t, init).0;
      if items[|items| - 1].Some? {
        var item := items[|items| - 1].value;
        if TableValid(t.rows) {
          PutThenRead(t1, item, ItemKey(item).value.0, ItemKey(item).value.1);
        }
      }
    }
  }

  /** With nothing to write, the table is left exactly as it was. */
  lemma {:induction false} PutAllNothing(t: TableState, items: seq<Option<Record>>)
    requires forall k :: 0 <= k < |items| ==> items[k].None?
    ensures PutAll(t, items) == (t, true)
    ensures Written(items) == []
    decreases |items|
  {
    if items != [] {
      PutAllNothing(t, items[..|items| - 1]);
    }
  }

  /** Once a put is refused, nothing listed after it is attempted. */
  lemma {:induction false} PutAllStops(t: TableState, items: seq<Option<Record>>, more: seq<Option<Record>>)
    requires !PutAll(t, items).1
    ensures PutAll(t, items + more) == PutAll(t, items)
    decreases |more|
  {
    if more == [] {
      assert items + more == items;
    } else {
      var more' := more[..|more| - 1];
      PutAllStops(t, items, more');
      assert (items + more)[..|items + more| - 1] == items + more';
    }
  }

  /** One step of the fold: the entry after a prefix. */
  lemma PutAllSnoc(t: TableState, items: seq<Option<Record>>, i: nat)
    requires i < |items|
    ensures PutAll(t, items[..i + 1]) ==
      (var (t1, ok) := PutAll(t, items[..i]);
       if !ok then (t1, false)
       else match items[i]
         case None => (t1, true)
         case Some(item) => (match Put(t1, item) case None => (t1, false) case Some(t2) => (t2, true)))
  {
    assert items[..i + 1][..i] == items[..i];
  }

  /** An entry after a prefix that went through either writes nothing or puts its item. */
  lemma PutAllAcceptedAt(t: TableState, items: seq<Option<Record>>, i: nat)
    requires i < |items| && PutAll(t, items[..i]).1
    requires items[i].Some? ==> Put(PutAll(t, items[..i]).0, items[i].value).Some?
    ensures PutAll(t, items[..i + 1]) ==
      (if items[i].None? then PutAll(t, items[..i]).0 else Put(PutAll(t, items[..i]).0, items[i].value).value, true)
  {
    PutAllSnoc(t, items, i);
  }

  /** A refused put at position `i`, after every earlier one went through, is where the whole fold stops. */
  lemma PutAllRefusedAt(t: TableState, items: seq<Option<Record>>, i: nat)
    requires i < |items| && PutAll(t, items[..i]).1
    requires items[i].Some? && Put(PutAll(t, items[..i]).0, items[i].value).None?
    ensures PutAll(t, items) == (PutAll(t, items[..i]).0, false)
  {
    PutAllSnoc(t, items, i);
    PutAllStops(t, items[..i + 1], items[i + 1..]);
    assert items[..i + 1] + items[i + 1..] == items;
  }

  /** The table the handlers read and write. */
  class ChatDataTable {
    var rows: map<(PyValue, PyValue), Record>
    var gets: nat
    var puts: seq<Record>

    function State(): TableState
      reads this
    {
      TableState(rows, gets, puts)
    }

    constructor (rows: map<(PyValue, PyValue), Record>)
      ensures State() == TableState(rows, 0, [])
    {
      this.rows := rows;
      gets := 0;
      puts := [];
    }

    /** `read_swiper_chat_data(chat_id, bot_id)`: one read; the table's items do not change. */
    method ReadSwiperChatData(chatId: PyValue, botId: PyValue) returns (item: Record)
      modifies this
      ensures item == Stored(old(rows), chatId, botId)
      ensures State() == old(State()).(gets := old(gets) + 1)
    {
      item := Stored(rows, chatId, botId);
      gets := gets + 1;
    }

    /** `write_swiper_chat_data(item)`: `ok` is false where the put raises, and then nothing changes. */
    method WriteSwiperChatData(item: Record) returns (ok: bool)
      modifies this
      ensures ok == Put(old(State()), item).Some?
      ensures State() == Put(old(State()), item).GetOr(old(State()))
    {
      var k := ItemKey(item);
      if k.None? {
        return false;
      }
      rows := rows[k.value := item];
      puts := puts + [item];
      ok := true;
    }
  }
}
