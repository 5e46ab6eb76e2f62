# CMC listing notification bot — a Dafny model of its bookkeeping

The bot polls a cryptocurrency price API and keeps three pieces of in-memory state:

- `id_to_coin_dict`: coin id to coin record, from the last completed poll cycle;
- `symbol_to_ids`: lower-case symbol to the set of coin ids that have it;
- `user_notifications`: the users who ran `?start`.

Each user's watchlist lives on disk as `users/<id>/symbols.json`.

One poll cycle does five things in order:

1. It lower-cases every fetched symbol.
2. It builds the new id dictionary (`coin_list_to_dict`).
3. It clears and refills `symbol_to_ids`.
4. It computes the ids that are new since the last cycle. It then notifies every subscribed user whose watchlist holds the symbol of a new id, and drops subscribers whose directory is gone.
5. It replaces `id_to_coin_dict`.

The chat commands `add`, `remove`, `check`, `listings`, `start` and `stop` read and write the same state.

The model has four modules:

- `Wrappers` (`wrappers.dfy`): `Option` and `Result`.
- `Text` (`text.dfy`): three things the bot uses.
  - `str.lower()`.
  - Python's code-point order on strings.
  - `sorted()` of a set of strings (`SortedList`), proved to give the unique strictly ascending list of the set's elements.
- `Functions` (`functions.py`'s `coin_list_to_dict`):
  - a coin record is `Coin(id, symbol, quote)`, where `None` marks a key the record lacks;
  - `CoinListToDict` rewrites an `array<Coin>` in place and returns the dictionary, or the index of the record whose missing symbol makes `None.lower()` raise;
  - `Index` is the specification of the dictionary it builds.
- `DiscordBot` (`discord_bot.py`):
  - the class `Bot` holds the fields `idToCoin`, `symbolToIds`, `userNotifications` and `store`. `store` maps a user to what `get_symbols` finds in their directory. A user has an entry exactly when their directory exists. The entry is one of three values:
    - `Listed(list)`: a `symbols.json` holding a list;
    - `NoFile`: no `symbols.json`, which reads as the empty set;
    - `Corrupt`: content that makes the read raise.
  - `GetSymbols` is `get_symbols` as written, with `None` for the raise. `Symbols` is the set an entry lists.
  - `PollCycle` is one pass through the body of `poll_loop`, with the loops of the source as methods (`NormalizeSymbols`, `RebuildSymbolIndex`, `FanOut`, `Prune`).
  - The commands are methods of `Bot`.

The model gets its I/O as parameters:

- The price list is `fetched: Option<seq<Coin>>`. `None` means `get_cmc_data()` raised.
- A notification send is recorded as a `(user, id)` pair in the returned set. A send raises in two cases:
  - the pair is in the parameter `undeliverable`, meaning Discord refuses it;
  - `EmbedRaises(coin)` holds, meaning `get_coin_embed` cannot build the embed. Its symbol or id is missing, or a price field is missing and `float(None)` raises.
- File reads and writes are reads and updates of `store`.

Two behaviours of the code that the model follows as written:

- The index swap is not atomic. `symbol_to_ids.clear()` at discord_bot.py:98 and the refill run before the reads and sends at :119-124. The swap of `id_to_coin_dict` at :130-131 comes after them. `PollCycle` states this: after a `ReadFailed` or `SendFailed` outcome, `symbolToIds == BySymbol(snapshot)` while `idToCoin` and `userNotifications` are unchanged.
- `get_symbols` does not lower-case what it reads. It returns `set(json.load(...))` as stored, so matching against coin symbols is exact.

## Model

| member | source | states |
|---|---|---|
| `Functions.CoinListToDict` | src/functions.py:16-21 | It succeeds exactly when every record has a symbol. On success the list is rewritten in place with lower-cased symbols and the result is `Index` of that list. On failure it names the first record without a symbol: the records before it are already rewritten and the rest are untouched. |
| `Functions.IndexKeys` | src/functions.py:17-21 | The key set of the dictionary equals the set of ids in the list (`coin.get("id", "")`). An empty list gives an empty map. |
| `Functions.IndexLastWins` | src/functions.py:18-20 | When an id repeats, its value is the record at the last position with that id. |
| `Functions.IndexValuesFromInput` | src/functions.py:18-20 | Every value is one of the input records and is filed under its own id; no record is invented. |
| `Functions.LowerCoin` | src/functions.py:19 | Rewriting one record's symbol gives a lower-case symbol and keeps its id and price fields. |
| `Functions.LoweredValuesAreLower` | src/functions.py:19-20 | Every value of the resulting dictionary has a lower-case symbol. |
| `Functions.LowerSymbolsIdempotent` | src/functions.py:19 | Running the function again on the list it rewrote changes nothing and cannot raise. |
| `Text.LowerIdempotent` | src/functions.py:19 | `s.lower().lower() == s.lower()`. |
| `Text.SortedList` | discord_bot.py:167 | `sorted(symbols)`: a strictly ascending list (sorted, no duplicates) whose elements are exactly the set. |
| `Text.StrictlySortedUnique` | discord_bot.py:167 | Two strictly ascending lists with the same elements are equal, so the persisted form of a watchlist is determined by its set. |
| `DiscordBot.GetSymbols` | discord_bot.py:44-59 | `get_symbols` as written. It fails exactly for a corrupt entry, which raises at :51 (`set(...)` of JSON that is not a list) or at :53-54 (the `{:s}` format in the invalid-JSON handler). No directory or no file gives the empty set. Otherwise it gives the set of the stored list. |
| `DiscordBot.Symbols` | discord_bot.py:44-59 | The defaulting read. Its elements are exactly the elements of the stored list, and it is empty when there is no list to read. |
| `DiscordBot.CorruptWatchfileRaises` | discord_bot.py:49-55 | As written, reading a corrupt file fails. The handler for invalid JSON formats the exception with `{:s}`, which raises TypeError, and JSON that is not a list makes `set(...)` raise. |
| `DiscordBot.SymbolsDefaultsToEmpty` | discord_bot.py:44-59 | The defaulting read, with both raises caught, is total. It agrees with `get_symbols` wherever that succeeds. It gives the empty set exactly when there is no directory, no file, no list or an empty list. |
| `DiscordBot.WrittenStoreIsReadable` | discord_bot.py:163-198 | In a store where every entry was written by `add` or `remove` (a strictly sorted, non-empty list), no read raises, and a user has a directory exactly when their watchlist is non-empty. |
| `DiscordBot.NormalizedEmbedRaises` | discord_bot.py:204-236 | `EmbedRaises` is the raise condition of `get_coin_embed`: a missing symbol (`upper()`), a missing id (`{:s}`), or a missing price field (`float(None)`). For a record after the normalising loop, the embed raises exactly when the record has no id or lacks one of `price_usd`, `price_eur`, `percent_change_1h` and `percent_change_24h`, whatever symbol it arrived with. |
| `DiscordBot.NormalizeSymbols` | discord_bot.py:92-93 | After the loop, record k is record k with its symbol, defaulting to `""`, lower-cased. |
| `DiscordBot.NormalizeCoin` | discord_bot.py:93 | A normalised record has a symbol, lower-case, and keeps its id and price fields. |
| `DiscordBot.NormalizedIsLowered` | discord_bot.py:93-95 | After that loop `coin_list_to_dict` cannot raise, and its own lower-casing leaves the list unchanged. |
| `DiscordBot.BySymbolExact` | discord_bot.py:98-106 | The derived index files every id under its coin's symbol. Every id it holds is a key of the dictionary, under its own symbol. No entry is empty. |
| `DiscordBot.Bot.RebuildSymbolIndex` | discord_bot.py:98-106 | After `clear()` and the refill loop, `symbolToIds` is exactly `BySymbol` of the new dictionary, so nothing from an earlier cycle survives. |
| `DiscordBot.Bot.FanOut` | discord_bot.py:112-124 | The loop completes exactly when every subscriber's read succeeds and no owed send raises. Then the sends are exactly the owed pairs (u, i): u is subscribed and has a directory, i is new, and i's symbol is on u's list. The stale users are then exactly the subscribers without a directory. Otherwise it ends at a subscriber whose read raises, or at an owed send that raises. Either way, nothing sent was a raising send, and everything sent was owed. |
| `DiscordBot.Bot.Prune` | discord_bot.py:126-127 | The subscribers afterwards are the old ones minus the stale ones. |
| `DiscordBot.Bot.PollCycle` | discord_bot.py:88-139 | A failed fetch changes nothing. Otherwise `symbolToIds` is rebuilt and `delta` is the new keys minus the old keys. The cycle completes exactly when every subscriber's watchlist reads and no owed send raises. A completed cycle does three things: it sends exactly the owed notifications, sets `idToCoin` to the new dictionary, and keeps only the subscribers with a directory. That leaves the index consistent. A failed read or send leaves `idToCoin` and the subscribers as they were. A store written by the bot never makes a read fail. The store is never changed. |
| `DiscordBot.SameSnapshotTwice` | discord_bot.py:109-131 | Two cycles on the same list. After a completed first cycle, the second has an empty `delta_ids` and sends nothing. After a failed one, it owes the same new ids again. |
| `DiscordBot.CorruptWatchlistStallsCycles` | discord_bot.py:113-139 | A subscriber with a corrupt watchlist file makes every cycle fail at the read, so `id_to_coin_dict` stays empty cycle after cycle. |
| `DiscordBot.Bot.constructor` | discord_bot.py:35-37 | At start-up the three containers are empty and the store is whatever `users/` holds. |
| `DiscordBot.Bot.Add` | discord_bot.py:150-168 | An empty argument changes nothing. A corrupt file raises and changes nothing. If `lower(symbol)` is already listed (no directory or no file counts as empty), nothing changes. Otherwise only this user's entry changes: it becomes a strictly sorted list whose set is the old set plus `lower(symbol)`. A store written by the bot stays so. |
| `DiscordBot.Bot.Remove` | discord_bot.py:179-201 | Three cases change nothing: an empty argument, a corrupt file (it raises) and a symbol that is not listed. If it was the only symbol, the user's entry is deleted. Otherwise the entry becomes a strictly sorted list of the old set minus the symbol. Only `store` may change, so subscriptions are untouched. A store written by the bot stays so. |
| `DiscordBot.Bot.Start` | discord_bot.py:300-306 | The user joins `userNotifications`; doing it again changes nothing. |
| `DiscordBot.Bot.Stop` | discord_bot.py:318-322 | The user leaves `userNotifications`. `wasRunning` is false exactly when they were not subscribed, the "not running" branch, and then the set is unchanged. |
| `DiscordBot.Bot.Check` | discord_bot.py:250-263 | An empty argument gives the usage reply. A symbol absent from `symbolToIds` gives "not listed". Otherwise it embeds the ids of that symbol that `idToCoin` has. It finishes exactly when none of those coins' embeds raises, and then the embedded ids are exactly those. If an embed raises, the crash is at such a coin, after embedding only coins whose embeds build. |
| `DiscordBot.CheckOnConsistentIndex` | discord_bot.py:254-263 | On a consistent index, "not listed" happens exactly when no coin has the symbol. Otherwise the ids looked up are exactly the ids of the coins with that symbol. |
| `DiscordBot.Bot.EmbedIds` | discord_bot.py:277-280 | One symbol's ids, in order, up to the first id whose embed raises. That is an id `idToCoin` lacks (`get_coin_embed(None)`), or a coin whose embed cannot be built. |
| `DiscordBot.Bot.SendListings` | discord_bot.py:266-287 | A corrupt file raises before anything is sent. An empty watchlist gives the "empty" reply. Otherwise the listing completes exactly when every walked (symbol, id) pair has a coin whose embed builds. Then the embeds are exactly those pairs, ordered by symbol and then id, followed by the sorted watchlist and the subscription flag. Otherwise it crashes at the first pair in that order that fails. |
| `DiscordBot.ConsistentIndexHasNoDanglingIds` | discord_bot.py:274-280 | On a consistent index every pair `send_listings` walks has a coin, so the guard skips nothing. |
| `DiscordBot.Bot.EmbedIdsGuarded` | discord_bot.py:277-280 | With the `coin is not None` guard: one symbol's ids that have a coin, in ascending order, up to the first coin whose embed raises. |
| `DiscordBot.Bot.SendListingsGuarded` | discord_bot.py:266-287 | The corrected `send_listings` never crashes on an id without a coin. It completes exactly when every walked pair that has a coin builds its embed, and then shows exactly those pairs in (symbol, id) order. Otherwise it crashes at the first such pair whose embed raises. The read and empty cases are as in `SendListings`. |
| `DiscordBot.ListingCrashAfterFailedSend` | discord_bot.py:98-131 | A reachable run in which `send_listings` crashes on a missing coin. User 1001 adds "ETH" and starts. A new, fully priced coin `ethereum`/"ETH" is listed, and Discord refuses the one notification. The as-written listing then crashes at ("eth", "ethereum"). The guarded listing shows nothing. |

## Findings

| source | as written | input that shows it | evidently intended | confidence | as-written member | corrected member |
|---|---|---|---|---|---|---|
| discord_bot.py:277-279 | `send_listings` passes `id_to_coin_dict.get(each_id)` to `get_coin_embed` without the `coin is not None` check that `check` makes at :261. After a cycle whose notification send raised, `symbol_to_ids` holds the new ids but `id_to_coin_dict` does not, so `None.get("symbol")` raises. | Empty state. User 1001 runs `?add ETH` and `?start`. A cycle then fetches one fully priced record, `{"id": "ethereum", "symbol": "ETH", ...}`, and Discord refuses the notification to 1001. Now 1001 runs `?listings`. | Skip ids that have no coin, as `check` does, or keep the index consistent with the dictionary. | medium; not executed | `DiscordBot.Bot.SendListings`, with `DiscordBot.ListingCrashAfterFailedSend` | `DiscordBot.Bot.SendListingsGuarded` |
| discord_bot.py:52-54 | The handler for invalid JSON logs `"...{:s}".format(json_path, ve)`. Formatting an exception with the `s` spec raises TypeError, so `get_symbols` raises instead of returning the empty set its message announces. JSON that is not a list makes `set(...)` at :51 raise TypeError, which no handler catches. The raise ends the poll cycle at :119, before the prune and the swap, and it ends `add`, `remove` and `listings` at :158, :188 and :268. | `users/1001/symbols.json` holds `[` (or `5`) and user 1001 is subscribed. Every cycle then fails at the read. | Default to the empty set on every unreadable file, as the log text says. That needs two changes: format with `{}` or `str(ve)`, and also catch the TypeError of `set(...)` on JSON that is not a list, e.g. `except (ValueError, TypeError)`. | high; not executed | `DiscordBot.GetSymbols`, with `DiscordBot.CorruptWatchfileRaises` and `DiscordBot.CorruptWatchlistStallsCycles` | `DiscordBot.Symbols`, with `DiscordBot.SymbolsDefaultsToEmpty` |

The rest of the model follows `get_symbols` as written: the cycle and the commands use `GetSymbols`.

## Left out

- Discord I/O is not modelled: sending messages and embeds, `get_user_info`, `bot.say` versus private replies, command registration, `on_ready`, `bot.run` and reading the token. A notification is a `(user, id)` pair in a set, and a reply is a datatype value. A crash reply (`CheckCrashed`, `ListingCrashed`, `Unreadable`, `WatchlistUnreadable`) stands for the exception that ends the command.
- The ordering of sends within a cycle, and of the embeds of `check`, is not modelled, because Python set iteration order is unspecified. The loops pick elements nondeterministically, and what was sent is a set.
- `asyncio.sleep`, the endless `while True` and the cooperative interleaving of commands with a running cycle are not modelled. The model runs one cycle at a time, with no command in between. For example, a `?start` during a send would make Python's set iteration raise.
- `get_coin_embed` (discord_bot.py:204-240) is presentation and float formatting. The model keeps only whether it raises (`EmbedRaises`): when the symbol or the id is missing, or a price field is absent and `float(None)` raises. A non-numeric price is caught and is not a raise.
- `get_cmc_data` and `get_debug_data` (src/functions.py:6-13) are a network call and a file read. The fetched list is the `fetched` parameter, so the `DEBUG` switch is not modelled.
- The snapshot dump at discord_bot.py:135-136 is not modelled. It runs after the swap, so its failure has no effect on the in-memory state.
- Logging setup (discord_bot.py:22-33) is not modelled.
- `os.makedirs` and `shutil.rmtree` are updates of `store`.
- The race between the `isfile` check (discord_bot.py:46) and the `open` (:49) is not modelled. A file that vanishes in between makes `open` raise, and nothing in `get_symbols` catches that. The `except FileNotFoundError` at :56-58 is dead code, because the `open` at :49 is outside the `try` that starts at :50.
- class_test.py is not part of this model. It only sets up empty containers and prints.
- `Text.Lower` lower-cases only ASCII `A`-`Z`. Python's `str.lower()` also maps non-ASCII letters.
- Dictionary values that are not strings are not modelled. This covers three cases:
  - JSON `null` or a number as an id, symbol or price. A `null` price raises in `get_coin_embed` just like an absent one.
  - A watchlist file holding a JSON string or object. `set(...)` turns these into a set of characters or keys.
  - A record's key is either a string or absent.
- `FanOut` and `PollCycle` do not model the aliasing between `coin_list_to_dict`'s result and the input records, because records are values. After the normalising loop, `coin_list_to_dict` reassigns each record's symbol at src/functions.py:19, but to the value it already has (`NormalizedIsLowered`). So the aliasing cannot be observed.
