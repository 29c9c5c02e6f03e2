# swipe-thought-bot relay, modelled in Dafny

Swiper is a Telegram bot. It relays every message a swiper (a chat of the bot) writes,
anonymously, to the other active swipers. Each relayed copy is signed with a generated
pseudonym. The copy is recorded as a *transmission* row that links the sender's message
(message id, chat id, bot id) to the receiver's copy. A reply to a copy travels back to the
author of the original message. A reply to one's own message goes out to every copy of it.
Edits follow the message to every copy.

Each webhook update is handled in one pass:
- it reads the per-chat item of the swiper chat-data table;
- it lends the conversation states and chat data kept in that item to the Telegram library
  (PTB);
- it routes the update to a handler;
- it writes the items back.

The earlier prototype keeps a *thought context* per chat instead. This is the list of recent
thoughts that the answer search uses. It also picks a random peer among three configured
chats.

The model is organised by source module:

| Dafny module | file | models |
|---|---|---|
| `Utils`, `Text`, `Wrappers` | utils.dfy, text.dfy, wrappers.dfy | `safe_int`, `fail_safely`; Python `str(int)`, `int(str)`, `join`, `split`; UTF-16 length |
| `SwiperUsernames` | usernames.dfy | `generate_swiper_username`, `append_swiper_username` |
| `SwiperUsername` | username.dfy | `kind_of_random_username`, `append_username` (the earlier signature) |
| `Thoughts` | thoughts.dfy | `construct_thought_id`, `ThoughtContext` |
| `SwiperMatcher` | matcher.dfy | `get_all_swiper_chat_ids`, `find_match_for_swiper` |
| `CommonSwiper`, `SwiperTwo` | swiper.dfy, swiper_two.dfy | the conversation-state handlers `start`, `user_thought`, `dislike` |
| `ChatDataStore` | chat_data_store.dfy | `read_swiper_chat_data`, `write_swiper_chat_data` over a table value |
| `SwiperTelegram` | swiper_telegram.dfy | `Swiper`, `SwiperUpdate`, `SwiperPersistence` of the shared conversation |
| `ExperimentSwiperTelegram` | experiments_telegram.dfy | `Swiper`, `SwiperUpdate` of the experimental conversations |
| `Telegram` | telegram.dfy | messages as values; the Bot API as an oracle (`Bot`): a log of calls and a script of answers |
| `MessageTransmitter` | transmitter.dfy | the experimental transmitter: lookups, topics, allogroomings, `_ptb_transmit`, `transmit_message`, `force_reply`, `edit_transmission` |
| `LegacyTransmitter` | legacy_transmitter.dfy | the first relay's `transmit_message` |
| `Transparency` | transparency.dfy | the experimental `SwiperTransparency` handlers and dispatcher |
| `LegacyTransparency` | legacy_transparency.dfy | the older `SwiperTransparency` |
| `FourTransparency` | four_transparency.dfy | the earliest `SwiperTransparency` |

The modelling choices:
- **State.** State lives in value types: the tables `Db` and `TableState`, and the platform
  `BotState`. Thin classes (`Store`, `Bot`, `ChatDataTable`, `Swiper`, `SwiperUpdate`,
  `SwiperPersistence`, `ChatData`, `ThoughtContext`) update their fields in place. Each method
  states its new state as a function of the old one, and the properties are proved about those
  functions.
- **Loops.** Each Python `for` loop is a Dafny `for` loop over an index, or a `while` loop
  over what is left to visit when it walks a dict or a set. Its invariants tie it to a fold
  over the part already visited.
- **Outside input.** The wall clock, random draws, the search answer and the Bot API's answers
  are parameters.
- **Ids.** `generate_uuid` is a counter whose next value no row holds yet.

## Model

| member | source | states |
|---|---|---|
| Utils.SafeInt | functions/common/utils.py:9-12 | `None` exactly for `None`. Ints and bools convert. Text returns Python's `int(text)` (`PyIntOfStr`) and raises exactly when that reading fails. On plain decimal text it agrees with `ParseInt`. |
| Utils.SafeIntOfPaddedDecimal | functions/common/utils.py:9-12 | `safe_int` reads an id written with whitespace around it. |
| Utils.SafeIntOfDoubledUnderscore | functions/common/utils.py:9-12 | `safe_int` raises on text with two underscores in a row. |
| Text.PyIntOfStrExtendsParseInt | functions/common/utils.py:12 | On an optional sign followed by decimal digits, `int(s)` is that number. |
| Text.PyIntOfStrIgnoresWhitespace | functions/common/utils.py:12 | Whitespace around the text does not change what `int(s)` reads. |
| Text.PyIntOfStrPadded | functions/common/utils.py:12 | `int(s)` reads back `str(i)` with any whitespace around it. |
| Text.PyIntOfStrGrouped | functions/common/utils.py:12 | Two runs of digits joined by one underscore read as the digits written together. |
| Text.PyIntOfStrDoubledUnderscore | functions/common/utils.py:12 | Text with two underscores in a row is refused, wherever they stand. |
| Text.PyIntOfStrBlank | functions/common/utils.py:12 | Blank text is refused. |
| Text.PyIntOfStrLoneSign | functions/common/utils.py:12 | A sign with only whitespace around it is refused. |
| Utils.SafeIntOfDecimal | functions/common/utils.py:9-12 | `safe_int(str(i)) == i` for every integer. |
| Text.ParseIntToString | functions/common/utils.py:12 | `int(str(i)) == i`. |
| Text.IntToStringInjective | functions/swiper_experiments/swiper_transparency.py:70 | Two integers have the same decimal text only when they are equal, so comparing `str` of chat ids compares the ids. |
| Text.Utf16LenIsEncodedLength | functions/swiper_experiments/swiper_usernames.py:30-31 | The UTF-16 length of a text is the length of its UTF-16 encoding. |
| Utils.FailSafely | functions/common/utils.py:35-54 | A non-`None` return passes through. A raise or a `None` return both yield the static response. |
| Utils.FailSafelyDefault | functions/common/utils.py:41-50 | With the default static response, the result is `None` iff the wrapped call raised or returned `None`. |
| Utils.FailSafelyIdempotent | functions/common/utils.py:35-54 | Wrapping twice with the same static response is wrapping once. |
| SwiperUsernames.DelimiterLength | functions/swiper_experiments/swiper_usernames.py:26 | The delimiter is 5 UTF-16 code units long. |
| SwiperUsernames.GenerateSwiperUsername | functions/swiper_experiments/swiper_usernames.py:10-19 | Fails iff the list of names is empty. Otherwise the base name is the picked name and the username is that name plus a number in [2100, 9999]. |
| SwiperUsernames.GeneratedNumberSuffix | functions/swiper_experiments/swiper_usernames.py:12-13 | The username is the base name followed by exactly four digits, which read back as a number in [2100, 9999]. |
| SwiperUsernames.AppendSwiperUsername | functions/swiper_experiments/swiper_usernames.py:22-35 | Missing text and entities default to empty. The text gains the delimiter and the username. The entities gain exactly one italic entity at the end. |
| SwiperUsernames.AppendedEntityCoversUsername | functions/swiper_experiments/swiper_usernames.py:29-33 | In the UTF-16 encoding of the result, the new entity's span is exactly the encoded username and ends the text. |
| SwiperUsername.KindOfRandomUsername | functions/swiper_experiments/swiper_username.py:40-48 | The result is one of the five fixed pseudonyms. |
| SwiperUsername.PseudonymsAreAscii | functions/swiper_experiments/swiper_username.py:41-47 | Every pseudonym's UTF-16 length equals its character count. |
| SwiperUsername.EntityList.constructor | functions/swiper_experiments/swiper_username.py:53 | A list of entities holding the given items. |
| SwiperUsername.AppendUsername | functions/swiper_experiments/swiper_username.py:51-65 | The text gains two line breaks and the pseudonym. A non-empty caller list is extended in place and returned. A missing or empty one is replaced by a new list, and the caller's list is unchanged. The entity is counted in characters. |
| SwiperUsername.CharCountOffsetMissesUsername | functions/swiper_experiments/swiper_username.py:59-63 | After one emoji, the character-count entity does not cover the username in UTF-16 units. |
| SwiperUsername.Utf16EntityCoversUsername | functions/swiper_experiments/swiper_username.py:59-63 | Measured in UTF-16 units, the entity covers exactly the trailing username, for every text. |
| SwiperUsername.CharCountAgreesOnBmp | functions/swiper_experiments/swiper_username.py:59-63 | On text within the Basic Multilingual Plane, both measures give the same entity. |
| Thoughts.ThoughtIdRoundTrip | functions/common/thoughts.py:9-12 | Parsing `m<msg>_c<chat>_b<bot>` gives back the three numbers. |
| Thoughts.ThoughtIdInjective | functions/common/thoughts.py:9-12 | Two thought ids are equal only when message, chat and bot all agree. |
| Thoughts.LastN | functions/common/thoughts.py:32 | Python's `s[-n:]`. For positive `n` it keeps the last `min(n, len)` entries. For 0 it keeps the whole list. For negative `n` it drops the first `-n` entries. |
| Thoughts.SliceStart | functions/common/thoughts.py:32 | Where Python's slice starts, clamped to the list. |
| Thoughts.UserOnly | functions/common/thoughts.py:60-61 | The filtered list is never longer than the list. Its members and order are stated by the three lemmas below. |
| Thoughts.UserOnlyMembers | functions/common/thoughts.py:60-61 | A thought is in the result iff it is a user's thought of the list. |
| Thoughts.UserOnlyPreservesOrder | functions/common/thoughts.py:60-61 | Filtering a concatenation filters each part, so the order is kept. |
| Thoughts.UserOnlySnoc | functions/common/thoughts.py:60-61 | One more thought is kept iff it is a user's thought. |
| Thoughts.TextsOf | functions/common/thoughts.py:64-65 | One text per thought, in order. |
| Thoughts.IdsOf | functions/common/thoughts.py:67-68 | One thought id per thought, in order. |
| Thoughts.RejectLatest | functions/common/thoughts.py:34-50 | Fails on an empty list or when the last thought is of another message. Otherwise it drops exactly the last thought. |
| Thoughts.LatestConvState | functions/common/thoughts.py:52-56 | `None` iff the list is empty. Otherwise it is the last thought's state. |
| Thoughts.TrimKeepsLatest | functions/common/thoughts.py:31-32 | Trimming keeps the last `min(len, 15)` thoughts in order. Trimming twice is trimming once. |
| Thoughts.AppendThenReject | functions/common/thoughts.py:22-50 | Appending a thought and then rejecting it by its message id gives the list back. |
| Thoughts.ChatData.constructor | functions/common/thoughts.py:16-17 | Chat data with every key absent. |
| Thoughts.ThoughtContext.constructor | functions/common/thoughts.py:16-17 | The context of a given chat data. |
| Thoughts.ThoughtContext.GetList | functions/common/thoughts.py:19-20 | Returns the stored list, storing an empty one when absent. Nothing else changes. |
| Thoughts.ThoughtContext.AppendThought | functions/common/thoughts.py:22-29 | The thought list is the old one plus one entry with the given fields and clock reading. |
| Thoughts.ThoughtContext.TrimContext | functions/common/thoughts.py:31-32 | The list becomes its slice `[-max:]`. |
| Thoughts.ThoughtContext.RejectLatestThought | functions/common/thoughts.py:34-50 | Raises, leaving the list unchanged, exactly when `RejectLatest` fails. Otherwise the list loses its last thought. |
| Thoughts.ThoughtContext.GetLatestConvState | functions/common/thoughts.py:52-56 | The last thought's state, or `None` for an empty list. |
| Thoughts.ThoughtContext.GetLatestThoughts | functions/common/thoughts.py:58-62 | The last `context_size` thoughts, filtered to the user's when asked. |
| Thoughts.ThoughtContext.ConcatLatestThoughts | functions/common/thoughts.py:64-65 | The texts of that selection joined with `"\n.\n"`. |
| Thoughts.ThoughtContext.GetLatestThoughtIds | functions/common/thoughts.py:67-68 | The ids of that same selection, in the same order. |
| SwiperMatcher.Listed | functions/common/swiper_matcher.py:9-16 | The configured ids without repeats: exactly the members of the set. |
| SwiperMatcher.Without | functions/common/swiper_matcher.py:23 | The ids other than the removed one, and only those. |
| SwiperMatcher.Choice | functions/common/swiper_matcher.py:24 | Defined iff the choices are non-empty, and then one of them. |
| SwiperMatcher.ChoiceCovers | functions/common/swiper_matcher.py:24 | Every element is chosen by some draw. |
| SwiperMatcher.FindMatchForSwiper | functions/common/swiper_matcher.py:19-24 | A match is a configured chat other than the asking one. It fails iff the asking chat is not configured or is the only configured chat. |
| SwiperMatcher.EveryPeerCanBeMatched | functions/common/swiper_matcher.py:19-24 | Every configured chat other than the asking one is the match for some draw. |
| CommonSwiper.IsBotSilent | functions/common/swiper.py:45-46 | Returns the stored flag, defaulting to true. The default is then stored and nothing else changes. |
| CommonSwiper.Start | functions/common/swiper.py:59-61 | In the intended code, the greeting is shown iff the bot is not silent. |
| CommonSwiper.StartAsWritten | functions/common/swiper.py:59-61 | As written, `start` raises iff the bot is not silent. The silence default is still stored. |
| CommonSwiper.Added | functions/common/swiper.py:76-107 | The user's thought is always appended. The bot's answer is appended as BOT_REPLIED iff there is one. |
| CommonSwiper.UserThought | functions/common/swiper.py:63-122 | In the intended code, the thought context becomes the last 15 of the old thoughts plus the user's thought and any answer. A silent bot gets no answer. The returned state, the latest message id and the answer id follow whether an answer came. The answerer mode is defaulted only when the bot is not silent. |
| CommonSwiper.Dislike | functions/common/swiper.py:127-142 | In the intended code, a dislike of another message is only shown. On the latest message the rejection raises when it fails. Otherwise the latest thought is dropped and PTB goes back to the previous thought's state, or to the end of the conversation. |
| CommonSwiper.UserThoughtAsWritten | functions/common/swiper.py:63-109 | As written, `user_thought` raises exactly when there is an answer to show. It does so after the user's thought, the silence flag and the answerer mode are stored: the context is left untrimmed and the latest ids unchanged. Without an answer it records the user's message and trims. |
| CommonSwiper.DislikeAsWritten | functions/common/swiper.py:127-142 | As written, `dislike` always raises. On the latest message the latest thought has been rejected by then. |
| CommonSwiper.AnsweredThoughtNotRecorded | functions/common/swiper.py:76-109 | The context left by the raising `user_thought` ends in USER_REPLIED and, when 15 thoughts were stored, holds 16. The intended one ends in BOT_REPLIED and holds 15. |
| CommonSwiper.ThoughtRecorded | functions/common/swiper.py:109-122 | In the intended code, after `user_thought` the context holds at most 15 thoughts, ends with the appended ones, and its latest state is the returned state. |
| CommonSwiper.RejectAnswerReturnsToUser | functions/common/swiper.py:127-140 | In the intended code, disliking the answer just given removes it and leads back to USER_REPLIED. |
| SwiperTwo.Start | functions/swiper_experiments/swiper_two/swiper_two.py:52-54 | In the intended code, the chat data is shown iff the bot is not silent. |
| SwiperTwo.StartAsWritten | functions/swiper_experiments/swiper_two/swiper_two.py:52-91 | As written, `start` raises iff the bot is not silent. The silence default is still stored. |
| SwiperTwo.UserThought | functions/swiper_experiments/swiper_two/swiper_two.py:56-71 | In the intended code, a bot that is not silent echoes the text. Its message then becomes the latest answer and the latest message (BOT_REPLIED). A silent bot records only the user's message as the latest (USER_REPLIED). |
| SwiperTwo.Dislike | functions/swiper_experiments/swiper_two/swiper_two.py:76-83 | On the latest message it shows the rejection and returns USER_REPLIED. On any other message it shows the dislike and returns no state. |
| SwiperTwo.UserThoughtAsWritten | functions/swiper_experiments/swiper_two/swiper_two.py:56-111 | As written, a bot that is not silent sends the echo and then raises: neither latest id changes. A silent bot records the user's message as the latest and returns USER_REPLIED. |
| SwiperTwo.EchoRejectedOnlyAsIntended | functions/swiper_experiments/swiper_two/swiper_two.py:56-83 | In a fresh chat with a talkative bot, a dislike on the echo is a rejection (USER_REPLIED) under the intended handlers and only a dislike (no state) under the ones as written. |
| ChatDataStore.Stored | functions/common/swiper_chat_data.py:15-29 | Returns the stored item. When none is stored, or the stored item is empty, it returns the item holding only the key. |
| ChatDataStore.StoredCarriesKey | functions/common/swiper_chat_data.py:15-29 | What a read hands out carries the key it was read under. |
| ChatDataStore.PutThenRead | functions/common/swiper_chat_data.py:32-38 | A put keeps the table keyed correctly. Reading the item's key gives the item, and other keys read as before. |
| ChatDataStore.PutAllOk | functions/common/swiper_telegram.py:88-89 | Every put of the persistence loop goes through iff every item to be written has a valid key. |
| ChatDataStore.PutAllPuts | functions/common/swiper_telegram.py:88-89 | When every put goes through, exactly the items to be written are put, once each and in order. Nothing is read. |
| ChatDataStore.PutAllNothing | functions/common/swiper_telegram.py:88-89 | With nothing to write, the table is left as it was. |
| ChatDataStore.PutAllStops | functions/common/swiper_telegram.py:88-89 | After a refused put, nothing later is attempted. |
| ChatDataStore.PutAllSnoc | functions/common/swiper_telegram.py:88-89 | One more swiper extends the fold by its own put. |
| ChatDataStore.PutAllAcceptedAt | functions/common/swiper_telegram.py:88-89 | An entry after a successful prefix writes either nothing or its item. |
| ChatDataStore.PutAllRefusedAt | functions/common/swiper_telegram.py:88-89 | A refused put at position `i` is where the whole fold stops. |
| ChatDataStore.ChatDataTable.constructor | functions/common/swiper_chat_data.py:12 | A table with the given items and no traffic. |
| ChatDataStore.ChatDataTable.ReadSwiperChatData | functions/common/swiper_chat_data.py:15-29 | Returns `Stored` of the items. The items are unchanged and one read is counted. |
| ChatDataStore.ChatDataTable.WriteSwiperChatData | functions/common/swiper_chat_data.py:32-38 | A put under the item's own key. An item without a valid key raises and changes nothing. |
| SwiperTelegram.Swiper.constructor | functions/common/swiper_telegram.py:25-29 | A swiper of the given chat and bot, not read yet. |
| SwiperTelegram.Swiper.SwiperData | functions/common/swiper_telegram.py:31-36 | The first access reads the table. Later accesses return the same item without reading. |
| SwiperTelegram.Swiper.SwiperState | functions/common/swiper_telegram.py:38-40 | Raises on a swiper not read yet. Otherwise returns the `swiper_state` field or `None`. |
| SwiperTelegram.Swiper.SetSwiperState | functions/common/swiper_telegram.py:42-44 | Raises on a swiper not read yet. Otherwise it sets that one field. |
| SwiperTelegram.Swiper.Persist | functions/common/swiper_telegram.py:46-53 | Writes the item back iff it was read. The write fails where the put raises. |
| SwiperTelegram.BaseSwiperConversation.constructor | functions/common/swiper_telegram.py:124 | No update is being processed. |
| SwiperTelegram.SwiperUpdate.constructor | functions/common/swiper_telegram.py:57-72 | The cache holds just the unread swiper of the effective chat, which is the current swiper. |
| SwiperTelegram.SwiperUpdate.GetSwiper | functions/common/swiper_telegram.py:74-82 | Returns the cached swiper under `str(chat_id)`, or caches a new unread one at the end of the order. Chat ids with the same text share one swiper. |
| SwiperTelegram.SwiperUpdate.Pending | functions/common/swiper_telegram.py:88-89 | One entry per cached swiper, in insertion order: its item once read, nothing otherwise. |
| SwiperTelegram.SwiperUpdate.PendingAt | functions/common/swiper_telegram.py:88-89 | The entry at a position is the data of the swiper under that key. |
| SwiperTelegram.SwiperUpdate.PersistSwipers | functions/common/swiper_telegram.py:84-89 | The effective chat is stored under `chat` in a current item that was read. Then the table is the fold of the puts of every cached swiper, in order, stopping at a refused one. |
| SwiperTelegram.SwiperUpdate.PersistEach | functions/common/swiper_telegram.py:88-89 | The loop leaves the table as the `PutAll` fold over `Pending`. |
| SwiperTelegram.SwiperUpdate.PersistAt | functions/common/swiper_telegram.py:89 | One persisted swiper extends the fold by one entry. A refusal is where the fold stops. |
| SwiperTelegram.SwiperUpdate.Enter | functions/common/swiper_telegram.py:91-95 | The conversation now knows this update. |
| SwiperTelegram.SwiperUpdate.Exit | functions/common/swiper_telegram.py:97-99 | The conversation forgets the update, then every swiper is persisted. |
| SwiperTelegram.ReprPieces | functions/common/swiper_telegram.py:220 | The comma-separated pieces of `repr` of an int tuple. |
| SwiperTelegram.SpacedPieces | functions/common/swiper_telegram.py:220 | Every int after the first is written with a space in front. |
| SwiperTelegram.SpacedPiecesShape | functions/common/swiper_telegram.py:220 | No piece holds a comma, and every later piece starts with a space. |
| SwiperTelegram.KeyEval | functions/common/swiper_telegram.py:210 | `eval` of a key text. Any tuple it returns is written back by `repr` as that same text. |
| SwiperTelegram.KeyRoundTrip | functions/common/swiper_telegram.py:210-220 | `eval(repr(key)) == key` for every int tuple. |
| SwiperTelegram.LoadStatesMeaning | functions/common/swiper_telegram.py:209-211 | Loading one conversation succeeds iff every key is a `repr`. Each state is then found under the tuple of its key, and each tuple came from a stored key. |
| SwiperTelegram.KeyEvalCanonical | functions/common/swiper_telegram.py:210 | `eval` accepts only canonical `repr` texts. |
| SwiperTelegram.LoadedPartMeaning | functions/common/swiper_telegram.py:209-211 | Each loaded key's state is found under its tuple. |
| SwiperTelegram.LoadedPartStep | functions/common/swiper_telegram.py:209-211 | Loading one more key adds exactly its tuple. |
| SwiperTelegram.LoadedOneMore | functions/common/swiper_telegram.py:209-211 | One round of the inner loop loads the key it takes. |
| SwiperTelegram.Cleared | functions/common/swiper_telegram.py:203-204 | Every conversation emptied, with its name kept. |
| SwiperTelegram.WithDefault | functions/common/swiper_telegram.py:206 | `setdefault(f, {})`: the field is present and the rest is unchanged. |
| SwiperTelegram.ReloadedPartStep | functions/common/swiper_telegram.py:206-211 | Loading one more stored name sets exactly that name. |
| SwiperTelegram.ReloadWith | functions/common/swiper_telegram.py:203-211 | Stored names hold their loaded states. Known names not stored are left empty. Fails where some stored conversation cannot be loaded. |
| SwiperTelegram.ReloadFails | functions/common/swiper_telegram.py:210 | A stored conversation that cannot be loaded makes the whole reload raise. |
| SwiperTelegram.ReloadedOneMore | functions/common/swiper_telegram.py:206-211 | One round of the outer loop loads the name it takes. |
| SwiperTelegram.ReloadedAll | functions/common/swiper_telegram.py:203-211 | Loading every stored name into the emptied conversations builds the reload. |
| SwiperTelegram.ReloadOfCleared | functions/common/swiper_telegram.py:203-204 | The reload depends only on the names held before, not on their states. |
| SwiperTelegram.StatesSet | functions/common/swiper_telegram.py:224-225 | Setting a state under a `repr` keeps a conversation loadable, and it then holds that state under the tuple. |
| SwiperTelegram.StatesPop | functions/common/swiper_telegram.py:222 | Popping a `repr` keeps a conversation loadable, and it then lacks the tuple. |
| SwiperTelegram.ReloadReplace | functions/common/swiper_telegram.py:206-211 | Replacing one stored conversation changes the reload at that name only. |
| SwiperTelegram.ReloadSet | functions/common/swiper_telegram.py:219-225 | After a set, the reload holds the state under the tuple for that name. Other names are as before. |
| SwiperTelegram.SetThenReload | functions/common/swiper_telegram.py:196-225 | `update_conversation` with a state, then the next update's reload: PTB gets that state under the same tuple key, the other names as stored, and a loadable item stays loadable. |
| SwiperTelegram.ReloadPop | functions/common/swiper_telegram.py:219-222 | After a pop, the reload holds no state under the tuple for that name. Other names are as before. |
| SwiperTelegram.PopThenReload | functions/common/swiper_telegram.py:196-222 | `update_conversation` with `None`, then the reload: no state under that key, and the other names as stored. |
| SwiperTelegram.SwiperPersistence.constructor | functions/common/swiper_telegram.py:178-186 | No item, no conversations and no chat data. |
| SwiperTelegram.SwiperPersistence.InsertBot | functions/common/swiper_telegram.py:188-190 | Returns the very object given. |
| SwiperTelegram.SwiperPersistence.ReplaceBot | functions/common/swiper_telegram.py:192-194 | Returns the very object given. |
| SwiperTelegram.SwiperPersistence.GetConversations | functions/common/swiper_telegram.py:216-217 | The states under the name, created empty when absent. |
| SwiperTelegram.SwiperPersistence.LoadStatesInto | functions/common/swiper_telegram.py:209-211 | The inner loop: the result is `LoadStates` of the stored states, or it fails where that raises. |
| SwiperTelegram.SwiperPersistence.LoadConversation | functions/common/swiper_telegram.py:207-211 | One round of the outer loop: the name now holds its loaded states. |
| SwiperTelegram.SwiperPersistence.LoadConversationsInto | functions/common/swiper_telegram.py:206-211 | The outer loop: the conversations become the reload of the stored ones, or it fails where a load raises. |
| SwiperTelegram.SwiperPersistence.InitFromSwiperData | functions/common/swiper_telegram.py:196-214 | Raises when the item has no chat id. Otherwise the conversations become the reload of `ptb_conversations`, and the chat data holds just this chat id's entry. That entry is the item's `ptb_chat_data`, defaulted. |
| SwiperTelegram.SwiperPersistence.UpdateConversation | functions/common/swiper_telegram.py:219-225 | Sets or pops the `repr(key)` entry in the item, creating dicts as `setdefault` does. Raises, changing nothing, with no item or a non-dict on the way. |
| ExperimentSwiperTelegram.Swiper.constructor | functions/swiper_experiments/swiper_telegram.py:20-25 | A swiper not read yet, with no snapshot. |
| ExperimentSwiperTelegram.Swiper.SwiperData | functions/swiper_experiments/swiper_telegram.py:27-33 | The first access reads the table and takes a snapshot equal to the item. Later accesses reuse both. |
| ExperimentSwiperTelegram.Swiper.IsSwiperAuthorized | functions/swiper_experiments/swiper_telegram.py:38-39 | The truthiness of the item's `is_swiper_authorized` field, reading the item first if needed. |
| ExperimentSwiperTelegram.ToWrite | functions/swiper_experiments/swiper_telegram.py:42 | Something is written iff the item was read and differs from its snapshot. |
| ExperimentSwiperTelegram.Swiper.Persist | functions/swiper_experiments/swiper_telegram.py:41-44 | Writes iff the item was read and changed since. The write fails where the put raises. |
| ExperimentSwiperTelegram.BaseSwiperConversation.constructor | functions/swiper_experiments/swiper_telegram.py:111 | No update is being processed. |
| ExperimentSwiperTelegram.SwiperUpdate.constructor | functions/swiper_experiments/swiper_telegram.py:48-63 | The cache holds just the unread swiper of the effective chat. |
| ExperimentSwiperTelegram.SwiperUpdate.GetSwiper | functions/swiper_experiments/swiper_telegram.py:65-73 | Returns the cached swiper under `str(chat_id)`, or caches a new one. |
| ExperimentSwiperTelegram.SwiperUpdate.Pending | functions/swiper_experiments/swiper_telegram.py:79-80 | What each cached swiper writes, in insertion order. |
| ExperimentSwiperTelegram.SwiperUpdate.PendingAt | functions/swiper_experiments/swiper_telegram.py:79-80 | The entry at a position is what that swiper writes. |
| ExperimentSwiperTelegram.SwiperUpdate.PersistSwipers | functions/swiper_experiments/swiper_telegram.py:75-80 | The chat is stored in a current item that was read. Then the table is the fold of the changed swipers' puts, stopping at a refused one. |
| ExperimentSwiperTelegram.SwiperUpdate.PersistEach | functions/swiper_experiments/swiper_telegram.py:79-80 | The loop leaves the table as the `PutAll` fold over `Pending`. |
| ExperimentSwiperTelegram.SwiperUpdate.PersistAt | functions/swiper_experiments/swiper_telegram.py:80 | One persisted swiper extends the fold by one entry. |
| ExperimentSwiperTelegram.SwiperUpdate.Enter | functions/swiper_experiments/swiper_telegram.py:82-86 | The conversation now knows this update. |
| ExperimentSwiperTelegram.SwiperUpdate.Exit | functions/swiper_experiments/swiper_telegram.py:88-90 | The conversation forgets the update, then the swipers are persisted. |
| MessageTransmitter.QueryByReceiver | functions/swiper_experiments/message_transmitter.py:38-44 | Exactly the rows whose receiver copy is the given triple. Order and repetitions are those of the table, by the next two lemmas. |
| MessageTransmitter.QueryByReceiverAppend | functions/swiper_experiments/message_transmitter.py:38-44 | The query over two tables in a row is the query over the first, then over the second. |
| MessageTransmitter.QueryByReceiverOne | functions/swiper_experiments/message_transmitter.py:38-44 | A one-row table answers with that row exactly when it matches. |
| MessageTransmitter.QueryByReceiverHead | functions/swiper_experiments/message_transmitter.py:38-44 | The first match of the query is the first matching row of the table. |
| MessageTransmitter.FindOriginalTransmission | functions/swiper_experiments/message_transmitter.py:31-69 | `None` iff no row has that receiver copy. Otherwise it is the first such row. |
| MessageTransmitter.FindTransmissionsBySenderMsg | functions/swiper_experiments/message_transmitter.py:72-101 | Exactly the rows whose sender message is the given triple. Order and repetitions are those of the table, by the next two lemmas. |
| MessageTransmitter.FindTransmissionsBySenderMsgAppend | functions/swiper_experiments/message_transmitter.py:72-101 | The lookup over two tables in a row is the lookup over the first, then over the second. |
| MessageTransmitter.FindTransmissionsBySenderMsgOne | functions/swiper_experiments/message_transmitter.py:72-101 | A one-row table answers with that row exactly when it matches. |
| MessageTransmitter.QueryAllogroomings | functions/swiper_experiments/message_transmitter.py:157-195 | Exactly the allogroomings matching all five fields. |
| MessageTransmitter.QueryAllogroomingsHead | functions/swiper_experiments/message_transmitter.py:157-195 | The first result is the first matching row. |
| MessageTransmitter.FindAllogrooming | functions/swiper_experiments/message_transmitter.py:157-195 | `None` iff nothing matches. Otherwise it is the first match. |
| MessageTransmitter.Without | functions/swiper_experiments/message_transmitter.py:359-363 | Deleting by id keeps every other row, in order, and no row with that id. |
| MessageTransmitter.WithoutAbsent | functions/swiper_experiments/message_transmitter.py:359-363 | Deleting an id no row has changes nothing. |
| MessageTransmitter.AddTopic | functions/swiper_experiments/message_transmitter.py:104-126 | One topic under a fresh id carrying the sender triple and archive key. Nothing else changes. |
| MessageTransmitter.AddAllogrooming | functions/swiper_experiments/message_transmitter.py:198-230 | One allogrooming under a fresh id with the given fields. Nothing else changes. |
| MessageTransmitter.ReceiverMsgS3KeyInjective | functions/swiper_experiments/message_transmitter.py:281 | Distinct transmissions of one update get distinct archive keys. |
| MessageTransmitter.FirstKindScansOrder | functions/swiper_experiments/message_transmitter.py:400-507 | The `if`/`elif` chain is the scan of the kinds in a fixed order. |
| MessageTransmitter.FirstFromSpec | functions/swiper_experiments/message_transmitter.py:400-507 | The scan finds a kind the message has, and no earlier one. |
| MessageTransmitter.DispatchFollowsOrder | functions/swiper_experiments/message_transmitter.py:400-507 | The first present kind is sent, in the order text, sticker, photo, animation, video, audio, video note, voice, location, contact, document, poll. Nothing is sent when none is present. |
| MessageTransmitter.BiggestPhoto | functions/swiper_experiments/message_transmitter.py:417 | A size of the list with the largest file size. |
| MessageTransmitter.BiggestPhotoIsFirst | functions/swiper_experiments/message_transmitter.py:417 | Among equal largest sizes, the first is kept. |
| MessageTransmitter.TransmissionKbdMarkup | functions/swiper_experiments/message_transmitter.py:18-28 | The heart button matches `red_heart`. A share button is present iff `show_share`. |
| MessageTransmitter.WithUsername | functions/swiper_experiments/message_transmitter.py:395-398 | The username is appended iff it is truthy. Otherwise text and entities pass as they are. |
| MessageTransmitter.ContentOf | functions/swiper_experiments/message_transmitter.py:400-500 | There is content iff the message has a kind and is not a poll. Its variant is that kind. |
| MessageTransmitter.PtbAction | functions/swiper_experiments/message_transmitter.py:392-509 | There is a call iff the message has a kind. A poll is forwarded; anything else is sent with its content. |
| MessageTransmitter.RelayedTextIsSigned | functions/swiper_experiments/message_transmitter.py:400-407 | A relayed text carries the username after the delimiter, and its last entity covers exactly that username. |
| MessageTransmitter.Transmit | functions/swiper_experiments/message_transmitter.py:233-325 | Without a delivered message, nothing is written and it reports false. Otherwise one row is written under a fresh id, the replied-to keyboard is cleared, and it reports true. |
| MessageTransmitter.TransmitWritesOneRow | functions/swiper_experiments/message_transmitter.py:277-312 | A delivered copy is one new row: the sender and receiver triples, the request's topic, allogrooming, reply and heart, under an id no row had. Other tables are untouched and the store stays valid. |
| MessageTransmitter.TransmitCalls | functions/swiper_experiments/message_transmitter.py:259-275 | One relaying call to the request's chat when there is content, taking one answer. It returns true iff that answer is a message. |
| MessageTransmitter.ForceReplySpec | functions/swiper_experiments/message_transmitter.py:328-363 | The prompt is a force-reply copy of the tapped message in its own chat; a tapped poll is forwarded, silently when black hearts are silent. Without a prompt, nothing is written and it fails. Otherwise the re-parented copy is put and the old id is deleted. |
| MessageTransmitter.ReparentReplacesRow | functions/swiper_experiments/message_transmitter.py:346-363 | The tapped row is replaced by its copy and the others stay in order. The copy differs only in its fresh id, its origin (the old id) and its receiver (the prompt). |
| MessageTransmitter.WithoutKeepsUnique | functions/swiper_experiments/message_transmitter.py:359-363 | Deleting keeps ids unique. |
| MessageTransmitter.UniqueIdWithoutRemovesOne | functions/swiper_experiments/message_transmitter.py:359-363 | In an id-unique table, deleting a row's id removes exactly that row. |
| MessageTransmitter.ReparentResolves | functions/swiper_experiments/message_transmitter.py:346-363 | After re-parenting, a reply to the prompt finds the copy. |
| MessageTransmitter.ReparentForgetsTapped | functions/swiper_experiments/message_transmitter.py:359-363 | After re-parenting, the tapped message no longer resolves. |
| MessageTransmitter.FindOrCreateAllogrooming | functions/swiper_experiments/swiper_transparency.py:167-186 | Returns the first matching allogrooming, or creates exactly one. `created` says which. |
| MessageTransmitter.AllogroomingNotDuplicated | functions/swiper_experiments/swiper_transparency.py:167-186 | A second find-or-create for the same pair and topic finds the first one and creates nothing. |
| MessageTransmitter.SignedEdit | functions/swiper_experiments/message_transmitter.py:520-535 | The new text, or the caption when there is no text, signed with the username. |
| MessageTransmitter.EditAction | functions/swiper_experiments/message_transmitter.py:512-549 | Edits the text when present, else the caption. The keyboard carries the row's heart. Neither present means no call. |
| MessageTransmitter.Edit | functions/swiper_experiments/message_transmitter.py:512-549 | Truthy iff the edit produced a message. It takes an answer only when it calls. |
| MessageTransmitter.Store.constructor | functions/common/dynamodb.py:19-22 | A store holding the given tables. |
| MessageTransmitter.Store.GenerateId | functions/swiper_experiments/message_transmitter.py:113 | A value no row holds. Only the supplier advances. |
| MessageTransmitter.CreateTopic | functions/swiper_experiments/message_transmitter.py:104-126 | The tables become `AddTopic` of the old ones. |
| MessageTransmitter.CreateSubtopic | functions/swiper_experiments/message_transmitter.py:129-154 | One subtopic under a fresh id with the topic id. Nothing else changes. |
| MessageTransmitter.CreateAllogrooming | functions/swiper_experiments/message_transmitter.py:198-230 | The tables become `AddAllogrooming` of the old ones. |
| MessageTransmitter.PtbTransmit | functions/swiper_experiments/message_transmitter.py:392-509 | Makes the one call `PtbAction` names, or none. |
| MessageTransmitter.TransmitMessage | functions/swiper_experiments/message_transmitter.py:233-325 | Tables, platform and result are `Transmit` of the old state. |
| MessageTransmitter.ForceReply | functions/swiper_experiments/message_transmitter.py:328-363 | Tables, platform and result are `ForceReplySpec` of the old state, with the relay's black-hearts-silent setting. |
| MessageTransmitter.EditTransmission | functions/swiper_experiments/message_transmitter.py:512-549 | Platform and result are `Edit` of the old state. |
| LegacyTransmitter.LegacyTransmit | functions/common/message_transmitter.py:70-124 | Exactly one send, which raises iff the platform gives no message. It then writes nothing. Otherwise one row without the later columns is written, and the call returns `None`. |
| LegacyTransmitter.LegacyTransmitWritesOneRow | functions/common/message_transmitter.py:96-124 | A delivered copy is one new row under a fresh id, with the two triples and the archive key. Other tables are untouched and the store stays valid. |
| LegacyTransmitter.LegacyCopyIsFound | functions/common/message_transmitter.py:32-67 | Looking the new copy up by its receiver triple finds the row just written. |
| LegacyTransmitter.LegacyTransmitMessage | functions/common/message_transmitter.py:70-124 | Tables, platform and result are `LegacyTransmit` of the old state. |
| Transparency.TransmitAllSnoc | functions/swiper_experiments/swiper_transparency.py:223-240 | One more request extends the OR fan-out by that request's transmission. |
| Transparency.AttemptsFor | functions/swiper_experiments/swiper_transparency.py:223-240 | One delivering call per request when there is content, none otherwise. |
| Transparency.AttemptsForTargets | functions/swiper_experiments/swiper_transparency.py:223-240 | Each attempt is its request's call, to the request's chat. |
| Transparency.TransmitAllScript | functions/swiper_experiments/swiper_transparency.py:223-240 | The fan-out takes one answer per request when there is content. |
| Transparency.TransmitAllOk | functions/swiper_experiments/swiper_transparency.py:223-240 | It reports true iff it started true or some attempt's answer is a message. The OR does not stop at the first success. |
| Transparency.TransmitAllAnswers | functions/swiper_experiments/swiper_transparency.py:223-240 | The answers taken and what the fan-out reports. |
| Transparency.TransmitAllKeepsLog | functions/swiper_experiments/swiper_transparency.py:223-240 | Earlier log entries stay. |
| Transparency.TransmitAllDeliveryCalls | functions/swiper_experiments/swiper_transparency.py:223-240 | The relaying calls logged are exactly the attempts, in order. |
| Transparency.TransmitAllDeliveries | functions/swiper_experiments/swiper_transparency.py:223-240 | The same, together with the earlier log kept. |
| Transparency.TransmitAllRowStep | functions/swiper_experiments/swiper_transparency.py:229-240 | One step of the fan-out on the transmission table. |
| Transparency.TransmitAllValid | functions/swiper_experiments/swiper_transparency.py:229-240 | The fan-out writes only transmissions and keeps the store valid. |
| Transparency.TransmitAllAppends | functions/swiper_experiments/swiper_transparency.py:229-240 | Rows are only appended: one per answer that was a message. |
| Transparency.TransmitAllRowsFor | functions/swiper_experiments/swiper_transparency.py:229-240 | Every appended row is the row of one of the requests. |
| Transparency.RowsForSnoc | functions/swiper_experiments/swiper_transparency.py:229-240 | Rows of earlier requests, plus at most one from the last request, all come from the requests. |
| Transparency.TransmitAllRows | functions/swiper_experiments/swiper_transparency.py:229-240 | One row per delivered copy and no other; the old rows stay, other tables are untouched, and the store stays valid. |
| Transparency.Others | functions/swiper_experiments/swiper_transparency.py:68-70 | The active chats other than the sender's, in order. |
| Transparency.StartReqsTargetOthers | functions/swiper_experiments/swiper_transparency.py:68-80 | Comparing decimal strings skips exactly the sender's chat. |
| Transparency.StartTopicWritesOneTopic | functions/swiper_experiments/swiper_transparency.py:58-90 | Exactly one topic under a fresh id. Every transmission written belongs to it, has a black heart and goes to another chat. The store stays valid. |
| Transparency.StartAttemptsTargets | functions/swiper_experiments/swiper_transparency.py:68-80 | One attempt per other chat, in order, each with a black heart, the topic and the configured silence. |
| Transparency.StartTopicAttemptsEveryOther | functions/swiper_experiments/swiper_transparency.py:58-90 | `start_topic` attempts exactly one delivery to each other active chat, in order. |
| Transparency.StartTopicNotice | functions/swiper_experiments/swiper_transparency.py:82-90 | It ends with "new topic started" iff some attempt produced a message, and "not transmitted" otherwise. |
| Transparency.EditAllSnoc | functions/swiper_experiments/swiper_transparency.py:111-123 | One more copy extends the AND fan-out by that copy's edit. |
| Transparency.EditsFor | functions/swiper_experiments/swiper_transparency.py:111-123 | One edit per copy when there is something to edit. |
| Transparency.EditsForTargets | functions/swiper_experiments/swiper_transparency.py:111-123 | Each edit is its copy's edit, with the stored heart or the default. |
| Transparency.EditAllScript | functions/swiper_experiments/swiper_transparency.py:111-123 | One answer is taken per edit. |
| Transparency.EditAllLog | functions/swiper_experiments/swiper_transparency.py:111-123 | Exactly the edits are logged, in the order of the copies. |
| Transparency.EditAllOk | functions/swiper_experiments/swiper_transparency.py:111-123 | True iff there was nothing to edit or every edit produced a message. The AND does not stop at the first failure. |
| Transparency.EditAllCalls | functions/swiper_experiments/swiper_transparency.py:111-123 | Calls, answers and the result of the edit fan-out together. |
| Transparency.EditMessageReportsFailure | functions/swiper_experiments/swiper_transparency.py:92-131 | With no copies, only "talk not found". Otherwise each copy is edited, with red as default iff there are fewer than two copies. "Failed to edit" follows iff some edit produced nothing. |
| Transparency.ForceReplyTapLog | functions/swiper_experiments/swiper_transparency.py:133-151 | The callback is always answered. An unknown copy: "talk not found", and the keyboard is cleared. A known copy: the prompt, then the tapped message is deleted, unless the prompt failed. |
| Transparency.ForceReplyTapTables | functions/swiper_experiments/swiper_transparency.py:133-151 | Nothing is written for an unknown copy or a failed prompt. Otherwise the tapped row is re-parented; the store stays valid. |
| Transparency.HitRequest | functions/swiper_experiments/swiper_transparency.py:163-200 | Back to the row's sender chat, red heart, replying to the author's message. In a topic it goes under the found or created allogrooming, and notifies only when that is new. |
| Transparency.TransmitReplyHitAllogrooming | functions/swiper_experiments/swiper_transparency.py:166-186 | Allogroomings are consulted only inside a topic. A match is reused; otherwise one is created. |
| Transparency.TransmitReplyHitSendsOnce | functions/swiper_experiments/swiper_transparency.py:162-203 | A reply to a received copy goes back once, to that copy's author. "Not transmitted" is reported iff nothing was delivered. |
| Transparency.ReplyReqs | functions/swiper_experiments/swiper_transparency.py:223-240 | One request per copy of the replied-to message. |
| Transparency.ReplyReqsTargets | functions/swiper_experiments/swiper_transparency.py:233-239 | Each request goes to its copy's chat, replying to the copy, and inherits the copy's topic and allogrooming. |
| Transparency.LastCallOfFanOut | functions/swiper_experiments/swiper_transparency.py:242-243 | After a fan-out that delivered something, the log does not end with a notice. |
| Transparency.TransmitReplyMissFansOut | functions/swiper_experiments/swiper_transparency.py:205-243 | No copies: just "talk not found". Otherwise one attempt per copy, with a red heart iff there is a single copy. "Not transmitted" is reported iff none arrived. |
| Transparency.StartTopic | functions/swiper_experiments/swiper_transparency.py:58-90 | Tables and platform become `StartTopicSpec` of the old ones. |
| Transparency.EditEach | functions/swiper_experiments/swiper_transparency.py:111-123 | The loop is the `EditAll` fold. |
| Transparency.EditMessage | functions/swiper_experiments/swiper_transparency.py:92-131 | The platform becomes `EditMessageSpec` and the tables are unchanged. |
| Transparency.ForceReplyTap | functions/swiper_experiments/swiper_transparency.py:133-151 | Tables and platform become `ForceReplyTapSpec`. |
| Transparency.ReplyToAuthor | functions/swiper_experiments/swiper_transparency.py:163-203 | Tables and platform become `HitSpec`. |
| Transparency.TransmitNext | functions/swiper_experiments/swiper_transparency.py:229-240 | One round of the OR loop extends the fan-out by one request. |
| Transparency.ReplyEach | functions/swiper_experiments/swiper_transparency.py:222-240 | The loop is the `TransmitAll` fold over the copies. |
| Transparency.ReplyToCopies | functions/swiper_experiments/swiper_transparency.py:205-243 | Tables and platform become `MissSpec`. |
| Transparency.TransmitReply | functions/swiper_experiments/swiper_transparency.py:153-243 | Tables and platform become `TransmitReplySpec`: the keyboard is cleared, then the hit or miss branch. |
| Transparency.RouteOf | functions/swiper_experiments/swiper_transparency.py:21-41 | Unauthorized message updates stop. Then commands, edits, replies and other messages are tried in that order. Taps reach only the reply handler. |
| Transparency.HandleSpec | functions/swiper_experiments/swiper_transparency.py:27-41 | The route's handler is the whole effect. A stopped or unhandled update changes nothing. |
| Transparency.Handle | functions/swiper_experiments/swiper_transparency.py:27-56 | Tables and platform become `HandleSpec`. |
| LegacyTransparency.DeliverAll | functions/swiper_transparency.py:51-62 | Each call takes the next answer. The log gains the calls in order. |
| LegacyTransparency.DeliverAllSnoc | functions/swiper_transparency.py:51-62 | One more call takes the answer at its position. |
| LegacyTransparency.DeliveredStep | functions/swiper_transparency.py:56-62 | One more answer extends the OR and the AND by that answer. |
| LegacyTransparency.Broadcast | functions/swiper_transparency.py:51-62 | One black-heart copy per chat, in order. |
| LegacyTransparency.CopyEdits | functions/swiper_transparency.py:92-104 | One edit per copy, with its stored heart or the default. |
| LegacyTransparency.CopyReplies | functions/swiper_transparency.py:185-198 | One copy per receiver, replying to that receiver's copy. |
| LegacyTransparency.StartTopicBroadcasts | functions/swiper_transparency.py:49-71 | Every other active chat is tried once, in order, with a black heart. "New topic started" follows iff some copy arrived, else "not transmitted". |
| LegacyTransparency.EditMessageNotFound | functions/swiper_transparency.py:81-87 | With no copies, only "talk not found". |
| LegacyTransparency.EditMessageEditsEveryCopy | functions/swiper_transparency.py:89-111 | Each copy is edited once, in order, with red as default iff it is the only copy. "Failed to edit" follows iff some edit produced nothing. |
| LegacyTransparency.ForceReplyTapOutcome | functions/swiper_transparency.py:113-131 | An unknown copy: a "talk not found" answer and the keyboard cleared. A known copy: a silent answer, the prompt, then the delete. |
| LegacyTransparency.TransmitReplyHit | functions/swiper_transparency.py:155-166 | Back once, red heart, to the original's chat, replying to it. "Not transmitted" follows iff nothing arrived. |
| LegacyTransparency.TransmitReplyMiss | functions/swiper_transparency.py:168-201 | No copies: "talk not found". Otherwise one copy per receiver, with red iff there is a single copy. "Not transmitted" follows iff none arrived. |
| LegacyTransparency.Start | functions/swiper_transparency.py:41-47 | The greeting with the stop keyboard. |
| LegacyTransparency.StartTopic | functions/swiper_transparency.py:49-71 | The platform becomes `StartTopicSpec`. |
| LegacyTransparency.EditEach | functions/swiper_transparency.py:91-104 | The loop is `DeliverAll` of the edits, and it reports the AND. |
| LegacyTransparency.EditMessage | functions/swiper_transparency.py:73-111 | The platform becomes `EditMessageSpec`. |
| LegacyTransparency.ForceReplyTap | functions/swiper_transparency.py:113-131 | The platform becomes `ForceReplyTapSpec`. |
| LegacyTransparency.Stop | functions/swiper_transparency.py:133-137 | The tapped message is deleted and "talk stopped" is answered. |
| LegacyTransparency.ReplyEach | functions/swiper_transparency.py:184-198 | The loop is `DeliverAll` of the copies, and it reports the OR. |
| LegacyTransparency.TransmitReply | functions/swiper_transparency.py:148-201 | The platform becomes `TransmitReplySpec`. |
| LegacyTransparency.RouteOf | functions/swiper_transparency.py:20-39 | Unauthorized message updates stop. Then `/start`, edits, replies and other messages. Only reply and stop taps are handled. |
| LegacyTransparency.HandleSpec | functions/swiper_transparency.py:26-39 | The route's handler is the whole effect, and the table is never written. |
| LegacyTransparency.Handle | functions/swiper_transparency.py:26-39 | The platform becomes `HandleSpec` and the tables are unchanged. |
| FourTransparency.FirstRefusal | functions/swiper_experiments/swiper_four/swiper_transparency.py:44-53 | The position of the first refused copy, with every earlier copy delivered. |
| FourTransparency.Copies | functions/swiper_experiments/swiper_four/swiper_transparency.py:44-53 | One copy call per target of the prefix. |
| FourTransparency.CopyRows | functions/swiper_experiments/swiper_four/swiper_transparency.py:44-53 | One row per delivered copy of the prefix. |
| FourTransparency.TransmitEachRaises | functions/swiper_experiments/swiper_four/swiper_transparency.py:44-53 | The broadcast raises iff some copy is refused. |
| FourTransparency.PrefixCopies | functions/swiper_experiments/swiper_four/swiper_transparency.py:44-53 | The copies and rows of a prefix are those of the whole list. |
| FourTransparency.SnocCopies | functions/swiper_experiments/swiper_four/swiper_transparency.py:44-53 | One more copy extends the calls, and the rows once it is delivered. |
| FourTransparency.TransmitEachSends | functions/swiper_experiments/swiper_four/swiper_transparency.py:44-53 | The copies up to and including the first refused one are sent, and no later target is tried. |
| FourTransparency.TransmitEachWrites | functions/swiper_experiments/swiper_four/swiper_transparency.py:44-53 | One row per copy before the refusal, under consecutive fresh ids. |
| FourTransparency.TransmitEachAbort | functions/swiper_experiments/swiper_four/swiper_transparency.py:44-53 | After a raise, later targets change nothing. |
| FourTransparency.OthersAppend | functions/swiper_experiments/swiper_four/swiper_transparency.py:47 | Filtering by the sender's chat distributes over concatenation. |
| FourTransparency.StartTopicSpec | functions/swiper_experiments/swiper_four/swiper_transparency.py:41-58 | Nothing for a message without text. Otherwise the broadcast, then the notice unless it raised. |
| FourTransparency.StartTopicOutcome | functions/swiper_experiments/swiper_four/swiper_transparency.py:41-58 | For text, every other chat gets a copy in order and the "started" notice follows, unless a copy is refused. Then there is no notice and only the earlier rows are written. |
| FourTransparency.TransmitReplySpec | functions/swiper_experiments/swiper_four/swiper_transparency.py:95-111 | A miss: the "not found" notice and nothing sent. A hit: one copy to the row's sender chat, replying to the sender's message. |
| FourTransparency.ReplyToCopyReachesAuthor | functions/swiper_experiments/swiper_four/swiper_transparency.py:44-53 | Once a copy reached a chat, a reply to it there goes back to the original chat as a reply to the original, and writes its own row. |
| FourTransparency.Start | functions/swiper_experiments/swiper_four/swiper_transparency.py:35-39 | The greeting with the reject keyboard. |
| FourTransparency.StartTopic | functions/swiper_experiments/swiper_four/swiper_transparency.py:41-58 | Tables and platform become `StartTopicSpec`. |
| FourTransparency.ForceReplyTap | functions/swiper_experiments/swiper_four/swiper_transparency.py:60-78 | An unknown copy: the callback answer and the keyboard cleared. A known copy: the prompt, then the delete. |
| FourTransparency.Reject | functions/swiper_experiments/swiper_four/swiper_transparency.py:80-84 | The message is deleted and "rejected" is answered. |
| FourTransparency.TransmitReply | functions/swiper_experiments/swiper_four/swiper_transparency.py:95-111 | Tables and platform become `TransmitReplySpec`. |
| FourTransparency.RouteOf | functions/swiper_experiments/swiper_four/swiper_transparency.py:19-33 | Unauthorized message updates stop. Then `/start`, replies and other messages. Reply and reject taps are handled. |
| FourTransparency.EditedRoutesAlike | functions/swiper_experiments/swiper_four/swiper_transparency.py:25-33 | An edited message is routed like a new one, since there is no edit handler. |
| FourTransparency.HandleSpec | functions/swiper_experiments/swiper_four/swiper_transparency.py:25-33 | The route's handler is the whole effect. |
| FourTransparency.Handle | functions/swiper_experiments/swiper_four/swiper_transparency.py:25-33 | Tables and platform become `HandleSpec`. |

## Left out

- **I/O.** S3 archiving (`put_s3_object`, `main_bucket.put_object`), the DynamoDB clients and logging are left out. Queries and puts are modelled on the table values, and archive keys as text. The JSON serialisation of the archived update is not modelled.
- **Telegram.** The Bot API is an oracle. Each delivering call takes its answer, a message id or failure, from a script and logs itself. The content of the resulting messages and any network errors other than "no message" are not modelled.
- **Search and clock.** The search service (`Answerer.answer`, `index_thought`) is left out, and so are `timestamp_now_ms` and randomness (`secrets`, `random`). The answer, clock readings and draws are parameters.
- **Integer coercions.** The `int(...)` coercions of ids are the identity, because ids are already integers in the model.
- **`prepare_msg_for_transmission`.** Re-sending a poll as an anonymous poll and deleting the original is not modelled. The handlers receive the message as already prepared.
- **Unmodelled handlers.** `handle_error`, the `help`/`about` texts, `report_msg_not_transmitted`'s wording, the presentation's rendering (`say_hello`, `answer_thought`, `like`, `reject`) and `like` are left out. The model records which notice or presentation is shown, not its text.
- **PTB hooks.** `update_chat_data` and the other persistence hooks do nothing in the source and are left out, and so is `flush`. `process_update_json` is represented by `Handle` together with `Enter`/`Exit`.
- **`SwiperTelegram.KeyEval`.** It models Python's `eval` only on the canonical `repr` of an int tuple. Anything else is treated as raising.
- **`SwiperTelegram.SwiperPersistence.InitFromSwiperData`.** When a stored key fails to load, the partly reloaded PTB conversations are left unspecified.
- **Aliasing.** The aliasing between `ptb_chat_data` and the item is modelled by key identity, so PTB's writes into that dict are not followed object by object.
- **Ordering.** Python dict and set iteration order is stood for by insertion order (the swiper cache) or by the configured order (`SwiperMatcher.Listed`).
- **`FourTransparency.StartTopicOutcome`.** The "started" notice is sent only when no send raised. The earliest routing uses the first relay's `transmit_message`, which is not fail-safe: a refused copy raises out of the handler.
- **Missing code.** The older routing imports collaborators that functions/common/message_transmitter.py does not define: `force_reply`, `edit_transmission`, `find_transmissions_by_sender_msg`, `RED_HEART_KEY`, `reply_stop_kbd_markup` and `reply_reject_kbd_markup`. It also passes `red_heart` to a `transmit_message` that has no such parameter. These calls are oracle actions (`OldTransmit`, `OldEdit`, `OldForceReply`), and their table writes are not modelled.
- **Undefined names.** Several imported names are not defined in the files shown:
  - `find_all_active_swiper_chat_ids`, `send_partitioned_text` and `utf16_cp_len`;
  - `CallbackData.LIKE` and `CallbackData.REJECT` of the shared constants;
  - `SwiperChatDataFields`, `DataKey`, `ConvState`, `EsKey` and `AnswererMode`;
  - `IS_SWIPER_AUTHORIZED_KEY`, imported from functions/common/swiper_chat_data.py by both older routings;
  - `Texts` and `BLACK_HEARTS_ARE_SILENT`, imported from functions/swiper_experiments/constants.py, which defines a class `Text` instead;
  - `generate_uuid`, imported from functions/common/utils.py;
  - `Answerer`, imported from functions/common/thoughts.py;
  - `JAPANESE_UNISEX_GIVEN_NAMES`, from a `japanese_names` module that is not part of this model.

  The active chats and the default answerer mode are parameters. `BLACK_HEARTS_ARE_SILENT` is the update scope's `blackHeartsAreSilent`, `generate_uuid` the store's id counter, `Answerer` the `answer` input and `JAPANESE_UNISEX_GIVEN_NAMES` the `names` parameter. The authorization key and the texts are modelled with the names they are used under.
- **`Utils.SafeInt`.** Python's `int` also accepts the decimal digits of other scripts (such as Arabic-Indic digits); `PyIntOfStr` refuses them.
- **`CommonSwiper.Start`.** It models the evidently intended handler. As written it raises for a bot that is not silent (`CommonSwiper.StartAsWritten`, see Findings).
- **`CommonSwiper.UserThought`.** It models the evidently intended handler. As written it raises when there is an answer to show (`CommonSwiper.UserThoughtAsWritten`, see Findings).
- **`CommonSwiper.Dislike`.** It models the evidently intended handler. As written it always raises (`CommonSwiper.DislikeAsWritten`, see Findings).
- **`CommonSwiper.ThoughtRecorded`.** It is about the intended `user_thought`. As written, an answered thought leaves the context untrimmed and ending in the user's thought (`CommonSwiper.AnsweredThoughtNotRecorded`).
- **`CommonSwiper.RejectAnswerReturnsToUser`.** It is about the intended handlers. As written, no answer is ever recorded, and `dislike` raises.
- **`SwiperTwo.Start`.** It models the evidently intended handler. As written it raises for a bot that is not silent (`SwiperTwo.StartAsWritten`, see Findings).
- **`SwiperTwo.UserThought`.** It models the evidently intended handler. As written a bot that is not silent raises after the echo (`SwiperTwo.UserThoughtAsWritten`, see Findings).
- **`SwiperTwo`.** Its `is_bot_silent` comes from a module that is not part of this model. It is taken to behave like the shared one.
- **`Swiper.swiper_username`.** It is not defined on the experimental `Swiper` shown. The username is an input of the update scope (`Scope.swiperUsername`).
- **Wrappers and unused modules.** `telegram_conv_state.py`, `telegram_conversation_state.py`, `swiper_three/swiper_prototype.py`, `swiper_four/message_transmitter.py`, functions/telegram_webhook.py and helper_tools are not part of this model.

## Findings

| source | as written | input that shows it | evidently intended | confidence | as-written member | corrected member |
|---|---|---|---|---|---|---|
| functions/swiper_experiments/swiper_username.py:59-63 | The italic entity's offset and length are counted with `len`, in code points, but Telegram measures entities in UTF-16 code units. | The text "😀" (U+1F600): the username starts at UTF-16 offset 4, but the entity says 3. | The offset and length in UTF-16 code units, as the later `append_swiper_username` computes them. | not executed | SwiperUsername.CharCountOffsetMissesUsername | SwiperUsername.Utf16EntityCoversUsername |
| functions/common/swiper.py:28-38 | `configure_dispatcher` builds each `CommonStateHandlers` as `(state, conversation)`, but `StateAwareHandlers` takes `(swiper_conversation, conv_state)` (functions/common/swiper_telegram.py:150). Every reach for `self.swiper_presentation` then raises. | A bot that is not silent, a text, and an answer from the search: `user_thought` raises at line 94. The context keeps the user's thought last, untrimmed (16 thoughts after 15), and `LATEST_MSG_ID` is unchanged (`CommonSwiper.AnsweredThoughtNotRecorded`). | The arguments in the order the constructor takes, as swiper_two.py:25-35 passes them. The audit key at line 171 also needs the update's key prefix: `update_scope` is not an attribute of the conversation. | not executed | CommonSwiper.UserThoughtAsWritten | CommonSwiper.UserThought |
| functions/swiper_experiments/swiper_two/swiper_two.py:108 | The audit key reads `swiper_update.update_s3_filename_prefix`, but `SwiperUpdate` defines `update_s3_key_prefix` (functions/common/swiper_telegram.py:61). | A fresh chat whose bot is not silent, and any text: the echo is sent, then the handler raises, so lines 66-68 never run. A dislike tapped on the echo is then only a dislike (`SwiperTwo.EchoRejectedOnlyAsIntended`). | `update_s3_key_prefix`, so that the echo becomes the latest answer and message. | not executed | SwiperTwo.UserThoughtAsWritten | SwiperTwo.UserThought |
| functions/swiper_experiments/swiper_two/swiper_two.py:89-91 | `say_hello` shows `swiper_update.swiper_chat_data`, which `SwiperUpdate` does not define. | `/start` in a chat whose bot is not silent raises. | Showing the current swiper's data. | not executed | SwiperTwo.StartAsWritten | SwiperTwo.Start |
