/**
 * The per-update bookkeeping of the experimental swiper conversations. It differs from the
 * shared one in how a swiper is written back: the item read is kept as a snapshot next to the
 * working copy, and `persist` writes only when the working copy no longer equals it.
 */
module ExperimentSwiperTelegram {
  import opened Wrappers
  import opened Utils
  import opened ChatDataStore

  /** A swiper: one chat as seen by one bot, with its item and the snapshot taken when it was read. */
  class Swiper {
    const chatId: PyValue
    const botId: int
    const table: ChatDataTable
    var data: Option<Record>
    /** `_swiper_data_original`: a deep copy, so later changes to `data` never reach it. */
    var original: Option<Record>

    constructor (chatId: PyValue, botId: int, table: ChatDataTable)
      ensures this.chatId == chatId && this.botId == botId && this.table == table && data.None? && original.None?
    {
      this.chatId := chatId;
      this.botId := botId;
      this.table := table;
      data := None;
      original := None;
    }

    /** `is_initialized`: the item has been read. */
    predicate IsInitialized()
      reads this
    {
      data.Some?
    }

    /** The `swiper_data` property: the first access reads the table and takes the snapshot; later ones return the same item. */
    method SwiperData() returns (d: Record)
      modifies this, table
      ensures data == Some(d)
      ensures old(data).Some? ==> d == old(data).value && original == old(original) && table.State() == old(table.State())
      ensures old(data).None? ==>
        d == Stored(old(table.rows), chatId, PyInt(botId)) && original == Some(d) &&
        table.State() == old(table.State()).(gets := old(table.gets) + 1)
    {
      if data.None? {
        var item := table.ReadSwiperChatData(chatId, PyInt(botId));
        data := Some(item);
        original := Some(item);
      }
      d := data.value;
    }

    /** `is_swiper_authorized`: the truthiness of the item's flag, read through the property (so it may read the table). */
    method IsSwiperAuthorized() returns (r: bool)
      modifies this, table
      ensures data.Some? && r == Truthy(Field(data.value, IsSwiperAuthorizedField))
      ensures old(data).Some? ==> data == old(data) && original == old(original) && table.State() == old(table.State())
      ensures old(data).None? ==>
        data == Some(Stored(old(table.rows), chatId, PyInt(botId))) && original == data &&
        table.State() == old(table.State()).(gets := old(table.gets) + 1)
    {
      var d := SwiperData();
      r := Truthy(Field(d, IsSwiperAuthorizedField));
    }

    /** `persist`: the item is written back only when it was read and has changed since; `ok` is false where the put raises. */
    method Persist() returns (ok: bool)
      modifies table
      ensures ToWrite(data, original).None? ==> ok && table.State() == old(table.State())
      ensures ToWrite(data, original).Some? ==>
        ok == Put(old(table.State()), data.value).Some? && table.State() == Put(old(table.State()), data.value).GetOr(old(table.State()))
    {
      ok := true;
      if IsInitialized() && data != original {
        ok := table.WriteSwiperChatData(data.value);
      }
    }
  }

  /** What `persist` writes for a working copy and its snapshot: the copy, when read and changed. */
  function ToWrite(data: Option<Record>, original: Option<Record>): (r: Option<Record>)
    ensures r.Some? <==> data.Some? && data != original
    ensures r.Some? ==> r == data
  {
    if data.Some? && data != original then data else None
  }

  /** The conversation object: the update being processed, while there is one. */
  class BaseSwiperConversation {
    var swiperUpdate: SwiperUpdate?

    constructor ()
      ensures swiperUpdate == null
    {
      swiperUpdate := null;
    }
  }

  /** One update being processed: the swipers met so far, keyed by the text of their chat id. */
  class SwiperUpdate {
    const conversation: BaseSwiperConversation
    const table: ChatDataTable
    const botId: int
    /** `effective_chat.to_dict()`; the constructor reads the effective chat's id, so there is one. */
    const effectiveChat: Json
    var swipers: map<string, Swiper>
    /** The cache's keys in insertion order, the order `_swipers.values()` visits them. */
    var order: seq<string>
    var current: Swiper

    /** Each key once, in the cache exactly when in `order`; each swiper is of this bot and table, under its own key. */
    ghost predicate Valid()
      reads this, swipers.Values
    {
      (forall k :: k in swipers <==> k in order) &&
      (forall i, j :: 0 <= i < j < |order| ==> order[i] != order[j]) &&
      (forall k :: k in swipers ==> swipers[k].table == table && swipers[k].botId == botId && StrOf(swipers[k].chatId) == k) &&
      current in swipers.Values && current.table == table
    }

    /** The constructor: the cache starts with the swiper of the effective chat, unread. */
    constructor (conversation: BaseSwiperConversation, table: ChatDataTable, botId: int, effectiveChatId: int, effectiveChat: Json)
      ensures Valid()
      ensures this.conversation == conversation && this.table == table && this.botId == botId && this.effectiveChat == effectiveChat
      ensures fresh(current) && current.chatId == PyInt(effectiveChatId) && current.data.None? && current.original.None?
      ensures swipers == map[StrOf(PyInt(effectiveChatId)) := current] && order == [StrOf(PyInt(effectiveChatId))]
    {
      this.conversation := conversation;
      this.table := table;
      this.botId := botId;
      this.effectiveChat := effectiveChat;
      var s := new Swiper(PyInt(effectiveChatId), botId, table);
      current := s;
      swipers := map[StrOf(PyInt(effectiveChatId)) := s];
      order := [StrOf(PyInt(effectiveChatId))];
      new;
      assert swipers[StrOf(PyInt(effectiveChatId))] == current;
    }

    /**
     * `get_swiper(chat_id)`: the cached swiper under `str(chat_id)`, or a new unread one that is
     * cached from then on, so repeated calls give the same object.
     */
    method GetSwiper(chatId: PyValue) returns (s: Swiper)
      requires Valid()
      modifies this
      ensures Valid() && current == old(current)
      ensures StrOf(chatId) in swipers && swipers[StrOf(chatId)] == s
      ensures StrOf(chatId) in old(swipers) ==> s == old(swipers)[StrOf(chatId)] && swipers == old(swipers) && order == old(order)
      ensures StrOf(chatId) !in old(swipers) ==>
        fresh(s) && s.chatId == chatId && s.botId == botId && s.table == table && s.data.None? && s.original.None? &&
        swipers == old(swipers)[StrOf(chatId) := s] && order == old(order) + [StrOf(chatId)]
    {
      var key := StrOf(chatId);
      if key in swipers {
        return swipers[key];
      }
      ghost var k0 :| k0 in swipers && swipers[k0] == current;
      s := new Swiper(chatId, botId, table);
      swipers := swipers[key := s];
      order := order + [key];
      assert swipers[k0] == current;
    }

    /** What `persist` writes for each swiper under `keys`, in order: its item once read and changed, nothing otherwise. */
    function Pending(keys: seq<string>): (r: seq<Option<Record>>)
      reads this, swipers.Values
      ensures |r| == |keys|
      decreases |keys|
    {
      if keys == [] then []
      else
        var k := keys[|keys| - 1];
        Pending(keys[..|keys| - 1]) + [if k in swipers then ToWrite(swipers[k].data, swipers[k].original) else None]
    }

    /** The entry of `Pending` at a position is what the swiper under that key would write. */
    lemma {:induction false} PendingAt(keys: seq<string>, i: nat)
      requires i < |keys|
      ensures Pending(keys)[i] == if keys[i] in swipers then ToWrite(swipers[keys[i]].data, swipers[keys[i]].original) else None
      decreases |keys|
    {
      if i < |keys| - 1 {
        PendingAt(keys[..|keys| - 1], i);
      }
    }

    /**
     * `persist_swipers`: the effective chat is stored under `chat` in the current swiper's item
     * when that item was read, then every cached swiper is persisted in insertion order; a
     * refused put raises and ends the loop (`ok` false).
     */
    method PersistSwipers() returns (ok: bool)
      requires Valid()
      modifies current, table
      ensures Valid()
      ensures current.data == if old(current.data).Some? then Some(old(current.data).value[ChatField := effectiveChat]) else None
      ensures current.original == old(current.original)
      ensures (table.State(), ok) == PutAll(old(table.State()), Pending(order))
    {
      if current.IsInitialized() {
        var d := current.SwiperData();
        current.data := Some(d[ChatField := effectiveChat]);
      }
      assert Valid();
      ghost var t := table.State();
      ok := PersistEach();
      assert (table.State(), ok) == PutAll(t, Pending(order));
    }

    /** The loop of `persist_swipers`: `persist` on every cached swiper, in insertion order, until a put raises. */
    method PersistEach() returns (ok: bool)
      requires Valid()
      modifies table
      ensures (table.State(), ok) == PutAll(old(table.State()), Pending(order))
    {
      ghost var t0 := table.State();
      ghost var items := Pending(order);
      var i := 0;
      while i < |order|
        invariant 0 <= i <= |order|
        invariant (table.State(), true) == PutAll(t0, items[..i])
        invariant Pending(order) == items
        modifies table
      {
        var written := PersistAt(i, t0, items);
        if !written {
          return false;
        }
        i := i + 1;
      }
      assert items[..|order|] == items;
      ok := true;
    }

    /** One step of `persist_swipers`' loop: the swiper at position `i` persisted after every earlier put went through. */
    method PersistAt(i: nat, ghost t0: TableState, ghost items: seq<Option<Record>>) returns (written: bool)
      requires Valid() && i < |order| && items == Pending(order)
      requires (table.State(), true) == PutAll(t0, items[..i])
      modifies table
      ensures written ==> (table.State(), true) == PutAll(t0, items[..i + 1])
      ensures !written ==> (table.State(), false) == PutAll(t0, items)
      ensures Pending(order) == items
    {
      var s := swipers[order[i]];
      ghost var before := table.State();
      written := s.Persist();
      PendingAt(order, i);
      assert items[i] == ToWrite(s.data, s.original);
      if !written {
        assert items[i].Some? && Put(before, items[i].value).None?;
        PutAllRefusedAt(t0, items, i);
      } else {
        PutAllAcceptedAt(t0, items, i);
      }
    }

    /** `__enter__`: the conversation now knows this update. */
    method Enter() returns (r: SwiperUpdate)
      modifies conversation
      ensures r == this && conversation.swiperUpdate == this
    {
      conversation.swiperUpdate := this;
      r := this;
    }

    /** `__exit__`: the conversation forgets the update, then every swiper is persisted. */
    method Exit() returns (ok: bool)
      requires Valid()
      modifies conversation, current, table
      ensures Valid() && conversation.swiperUpdate == null
      ensures current.data == if old(current.data).Some? then Some(old(current.data).value[ChatField := effectiveChat]) else None
      ensures (table.State(), ok) == PutAll(old(table.State()), Pending(order))
    {
      conversation.swiperUpdate := null;
      ok := PersistSwipers();
    }
  }
}
