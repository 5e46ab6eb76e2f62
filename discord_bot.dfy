/**
 * The in-memory bookkeeping of discord_bot.py: the coin index rebuilt by each
 * poll cycle, the per-user watchlist files, and the set of users who asked for
 * listing notifications, together with the commands that read and write them.
 */
module DiscordBot {
  import opened Wrappers
  import opened Text
  import opened Functions

  // ---------------------------------------------------------------------------
  // Watchlist store
  // ---------------------------------------------------------------------------

  /**
   * What `get_symbols` finds in `users/<id>/`: a `symbols.json` holding a JSON
   * list of symbols, no `symbols.json` at all, or a file whose content makes
   * the read raise (text that is not JSON, or JSON that is not a list).
   */
  datatype Watchfile = Listed(symbols: seq<string>) | NoFile | Corrupt

  /** The `users/` directory: a user has an entry exactly when `users/<id>/` exists. */
  type Store = map<string, Watchfile>

  /**
   * The symbols a user's entry lists: the empty set when there is no
   * directory, no file or no readable list. This is `get_symbols` with every raise
   * caught and defaulting to the empty set.
   */
  function Symbols(store: Store, user: string): (r: set<string>)
    ensures forall x :: x in r ==> user in store && store[user].Listed? && x in store[user].symbols
    ensures user in store && store[user].Listed? ==> forall x :: x in store[user].symbols ==> x in r
  {
    if user in store && store[user].Listed? then Elems(store[user].symbols) else {}
  }

  /** Reading the user's watchlist does not raise. */
  predicate Readable(store: Store, user: string) {
    user !in store || !store[user].Corrupt?
  }

  /**
   * `get_symbols(user_id)` as written; `None` is the raise. A missing
   * directory or file gives the empty set. Invalid JSON is caught, but the
   * handler formats the exception with `{:s}`, which raises TypeError; JSON
   * that is not a list makes `set(...)` raise.
   */
  function GetSymbols(store: Store, user: string): (r: Option<set<string>>)
    ensures r.None? <==> user in store && store[user].Corrupt?
    ensures user !in store || store[user].NoFile? ==> r == Some({})
    ensures user in store && store[user].Listed? ==> r == Some(Elems(store[user].symbols))
  {
    if Readable(store, user) then Some(Symbols(store, user)) else None
  }

  /**
   * The corrupt-file case of `get_symbols` as written: the read fails, where
   * the defaulting read gives the empty set.
   */
  lemma CorruptWatchfileRaises(store: Store, user: string)
    requires user in store && store[user].Corrupt?
    ensures GetSymbols(store, user) == None
    ensures Symbols(store, user) == {}
  {
  }

  /**
   * `Symbols` is `get_symbols` with both of its raises caught and defaulting
   * to the empty set: the TypeError of the `{:s}` format in the invalid-JSON
   * handler, and the TypeError of `set(...)` on JSON that is not a list,
   * which no handler catches. It is total, agrees with the as-written read
   * wherever that succeeds, and gives the empty set exactly where the entry
   * lists nothing.
   */
  lemma SymbolsDefaultsToEmpty(store: Store, user: string)
    ensures GetSymbols(store, user).Some? ==> GetSymbols(store, user).value == Symbols(store, user)
    ensures Symbols(store, user) == {} <==> user !in store || !store[user].Listed? || store[user].symbols == []
  {
    if user in store && store[user].Listed? {
      ElemsEmpty(store[user].symbols);
    }
  }

  /**
   * Every entry is one `add` or `remove` wrote: `sorted(symbols)` of a
   * non-empty set, since `remove` deletes the directory with the last symbol.
   */
  predicate WrittenByBot(store: Store) {
    forall u :: u in store ==> store[u].Listed? && StrictlySorted(store[u].symbols) && store[u].symbols != []
  }

  /**
   * In a store the bot wrote itself no read raises, and a user has a
   * directory exactly when their watchlist is non-empty.
   */
  lemma WrittenStoreIsReadable(store: Store, user: string)
    requires WrittenByBot(store)
    ensures GetSymbols(store, user) == Some(Symbols(store, user))
    ensures user in store <==> Symbols(store, user) != {}
  {
    if user in store {
      ElemsEmpty(store[user].symbols);
    }
  }

  /** What a user is told by `add` and `remove`; `Unreadable` is the raise of the watchlist read, after which nothing is written. */
  datatype Reply =
    | ArgumentMissing
    | AlreadyInList(symbol: string)
    | Added(symbol: string)
    | Removed(symbol: string, folderDeleted: bool)
    | NotInList(symbol: string)
    | Unreadable

  // ---------------------------------------------------------------------------
  // Coin index
  // ---------------------------------------------------------------------------

  /** `each_coin["symbol"] = each_coin.get("symbol", "").lower()`, applied to every fetched record. */
  function NormalizeCoin(c: Coin): (r: Coin)
    ensures r.symbol.Some? && IsLower(r.symbol.value)
    ensures r.id == c.id && r.quote == c.quote
  {
    LowerIsLower(c.symbol.GetOr(""));
    c.(symbol := Some(Lower(c.symbol.GetOr(""))))
  }

  function Normalized(coins: seq<Coin>): (r: seq<Coin>)
    ensures |r| == |coins| && AllHaveSymbol(r)
  {
    seq(|coins|, k requires 0 <= k < |coins| => NormalizeCoin(coins[k]))
  }

  /** The loop that gives every fetched record a lower-case symbol before `coin_list_to_dict` runs. */
  method NormalizeSymbols(coins: array<Coin>)
    modifies coins
    ensures coins[..] == Normalized(old(coins[..]))
  {
    for k := 0 to coins.Length
      invariant coins[..k] == Normalized(old(coins[..k]))
      invariant coins[k..] == old(coins[k..])
    {
      coins[k] := NormalizeCoin(coins[k]);
      assert coins[..k + 1] == coins[..k] + [coins[k]];
    }
    assert coins[..coins.Length] == coins[..];
  }

  /**
   * After the normalising loop `coin_list_to_dict` cannot raise, and its own
   * lower-casing changes nothing.
   */
  lemma NormalizedIsLowered(coins: seq<Coin>)
    ensures AllHaveSymbol(Normalized(coins))
    ensures LowerSymbols(Normalized(coins)) == Normalized(coins)
  {
    var n := Normalized(coins);
    forall k | 0 <= k < |coins| ensures LowerCoin(n[k]) == n[k] {
      LowerKeepsLower(n[k].symbol.value);
    }
  }

  /** `new_id_to_coin_dict`: the dictionary built from one fetched list. */
  function Snapshot(fetched: seq<Coin>): map<string, Coin> {
    Index(Normalized(fetched))
  }

  /** `each_coin.get("symbol", "")`: the symbol a coin is indexed under. */
  function SymbolOf(c: Coin): string {
    c.symbol.GetOr("")
  }

  /** The symbols the coins of a dictionary are indexed under. */
  function IndexedSymbols(m: map<string, Coin>): set<string> {
    set i | i in m :: SymbolOf(m[i])
  }

  /** The ids of a dictionary whose coin has symbol `s`. */
  function IdsWith(m: map<string, Coin>, s: string): set<string> {
    set i | i in m && SymbolOf(m[i]) == s
  }

  /** `symbol_to_ids` as derived from a coin dictionary. */
  function BySymbol(m: map<string, Coin>): map<string, set<string>> {
    map s | s in IndexedSymbols(m) :: IdsWith(m, s)
  }

  /**
   * The derived index files every coin under its symbol, holds no id that is
   * not in the dictionary, and has no empty entry; so no symbol of an earlier
   * dictionary survives in it.
   */
  lemma BySymbolExact(m: map<string, Coin>)
    ensures forall i :: i in m ==> SymbolOf(m[i]) in BySymbol(m) && i in BySymbol(m)[SymbolOf(m[i])]
    ensures forall s :: s in BySymbol(m) ==> BySymbol(m)[s] != {}
    ensures forall s, i :: s in BySymbol(m) && i in BySymbol(m)[s] ==> i in m && SymbolOf(m[i]) == s
  {
    forall s | s in BySymbol(m) ensures BySymbol(m)[s] != {} {
      var i :| i in m && SymbolOf(m[i]) == s;
      assert i in IdsWith(m, s);
    }
  }

  lemma IndexedSymbolsInsert(m: map<string, Coin>, id: string, c: Coin)
    ensures IndexedSymbols(m[id := c]) == IndexedSymbols(m - {id}) + {SymbolOf(c)}
  {
    var m' := m[id := c];
    forall s | s in IndexedSymbols(m') ensures s in IndexedSymbols(m - {id}) + {SymbolOf(c)} {
      var i :| i in m' && SymbolOf(m'[i]) == s;
      if i != id {
        assert (m - {id})[i] == m[i];
      }
    }
    forall s | s in IndexedSymbols(m - {id}) ensures s in IndexedSymbols(m') {
      var i :| i in m - {id} && SymbolOf((m - {id})[i]) == s;
      assert m'[i] == m[i];
    }
    assert SymbolOf(m'[id]) in IndexedSymbols(m');
  }

  lemma IdsWithInsert(m: map<string, Coin>, id: string, c: Coin, s: string)
    requires id !in m
    ensures IdsWith(m[id := c], s) == IdsWith(m, s) + (if SymbolOf(c) == s then {id} else {})
  {
  }

  /** Filing one more coin under its symbol extends the derived index by that one id. */
  lemma BySymbolInsert(m: map<string, Coin>, id: string, c: Coin)
    requires id !in m
    ensures BySymbol(m[id := c]) ==
            BySymbol(m)[SymbolOf(c) := (if SymbolOf(c) in BySymbol(m) then BySymbol(m)[SymbolOf(c)] else {}) + {id}]
  {
    var before, after := BySymbol(m), BySymbol(m[id := c]);
    var expected := before[SymbolOf(c) := (if SymbolOf(c) in before then before[SymbolOf(c)] else {}) + {id}];
    IndexedSymbolsInsert(m, id, c);
    assert m - {id} == m;
    assert after.Keys == expected.Keys;
    forall s | s in after ensures after[s] == expected[s] {
      IdsWithInsert(m, id, c, s);
      if s != SymbolOf(c) {
        assert s in before;
      }
    }
  }

  lemma RemainderStep(m: map<string, Coin>, pending: set<string>, id: string)
    requires id in pending && id in m
    ensures id !in m - pending
    ensures m - (pending - {id}) == (m - pending)[id := m[id]]
  {
  }

  // ---------------------------------------------------------------------------
  // Coin embeds
  // ---------------------------------------------------------------------------

  /** The quote fields `get_coin_embed` passes to `float()`. */
  const PriceFields: set<string> := {"price_usd", "price_eur", "percent_change_1h", "percent_change_24h"}

  /**
   * `get_coin_embed(coin)` raises: `upper()` of a missing symbol, `{:s}` of a
   * missing id, or `float(None)` of a missing price field, a TypeError that
   * the `except ValueError` around each conversion does not catch. A price
   * that is present but not a number is caught and shown as a default.
   */
  predicate EmbedRaises(c: Coin) {
    c.symbol.None? || c.id.None? || !(PriceFields <= c.quote.Keys)
  }

  /**
   * For a fetched record after the normalising loop, which always has a
   * symbol, the embed raises exactly when the record has no id or lacks a
   * price field; the symbol the record arrived with, or its absence, plays
   * no part.
   */
  lemma NormalizedEmbedRaises(c: Coin)
    ensures EmbedRaises(NormalizeCoin(c)) <==> c.id.None? || exists k :: k in PriceFields && k !in c.quote
    ensures EmbedRaises(NormalizeCoin(c)) == EmbedRaises(NormalizeCoin(c.(symbol := None)))
  {
    var n := NormalizeCoin(c);
    if exists k :: k in PriceFields && k !in c.quote {
      var k :| k in PriceFields && k !in c.quote;
      assert k !in n.quote.Keys;
    }
  }

  /** `id_to_coin_dict.get(id)` is a coin whose embed can be built. */
  predicate Embeddable(coins: map<string, Coin>, id: string) {
    id in coins && !EmbedRaises(coins[id])
  }

  // ---------------------------------------------------------------------------
  // Notification fan-out
  // ---------------------------------------------------------------------------

  /** `coin.get("symbol") in symbols` for the watchlist of `user`. */
  predicate Watches(store: Store, user: string, c: Coin) {
    c.symbol.Some? && c.symbol.value in Symbols(store, user)
  }

  /** The notifications one subscriber is owed for the ids in `ids`. */
  function Row(user: string, store: Store, snapshot: map<string, Coin>, ids: set<string>): set<(string, string)>
    requires ids <= snapshot.Keys
  {
    set i | i in ids && Watches(store, user, snapshot[i]) :: (user, i)
  }

  /**
   * The notifications one cycle owes: a (user, id) pair for every subscriber
   * whose directory exists and every new id whose symbol is on that user's list.
   */
  function Notifications(subs: set<string>, store: Store, snapshot: map<string, Coin>, delta: set<string>): set<(string, string)>
    requires delta <= snapshot.Keys
  {
    set u, i | u in subs && u in store && i in delta && Watches(store, u, snapshot[i]) :: (u, i)
  }

  lemma NotificationsStep(done: set<string>, u: string, store: Store, snapshot: map<string, Coin>, delta: set<string>)
    requires delta <= snapshot.Keys
    ensures Notifications(done + {u}, store, snapshot, delta) ==
            Notifications(done, store, snapshot, delta) + (if u in store then Row(u, store, snapshot, delta) else {})
  {
    var lhs := Notifications(done + {u}, store, snapshot, delta);
    var rhs := Notifications(done, store, snapshot, delta) + (if u in store then Row(u, store, snapshot, delta) else {});
    forall p ensures p in lhs <==> p in rhs {
      if p in rhs && p !in Notifications(done, store, snapshot, delta) {
        assert p.0 == u && p.1 in delta;
      }
    }
  }

  lemma NotificationsMonotone(done: set<string>, subs: set<string>, store: Store, snapshot: map<string, Coin>, delta: set<string>)
    requires delta <= snapshot.Keys
    requires done <= subs
    ensures Notifications(done, store, snapshot, delta) <= Notifications(subs, store, snapshot, delta)
  {
  }

  /** `notification(user, coin)` raises: Discord refuses the send, or the coin's embed cannot be built. */
  predicate SendRaises(snapshot: map<string, Coin>, undeliverable: set<(string, string)>, p: (string, string)) {
    p in undeliverable || (p.1 in snapshot && EmbedRaises(snapshot[p.1]))
  }

  /** Nothing in the loop over `user_notifications` raises: every read succeeds and every owed send goes out. */
  predicate CycleCanComplete(subs: set<string>, store: Store, snapshot: map<string, Coin>, delta: set<string>,
                             undeliverable: set<(string, string)>)
    requires delta <= snapshot.Keys
  {
    && (forall u :: u in subs ==> Readable(store, u))
    && (forall p :: p in Notifications(subs, store, snapshot, delta) ==> !SendRaises(snapshot, undeliverable, p))
  }

  /** What one poll cycle ended with; a raise names the read or the send that raised. */
  datatype CycleOutcome =
    | Completed
    | FetchFailed
    | ReadFailed(user: string)
    | SendFailed(user: string, id: string)

  // ---------------------------------------------------------------------------
  // Command replies
  // ---------------------------------------------------------------------------

  /**
   * What `check` sends: the usage hint, "not listed", or one embed per id in
   * `ids`. `CheckCrashed` is an embed raising at `id`, after the embeds of
   * `sent`.
   */
  datatype CheckReply =
    | CheckUsage
    | NotListed(symbol: string)
    | Found(ids: set<string>)
    | CheckCrashed(sent: set<string>, id: string)

  /**
   * What `send_listings` sends: "watchlist empty", or the embeds in display
   * order as (symbol, id) pairs followed by the sorted watchlist; both end with
   * whether notifications run. `ListingCrashed` is the `get_coin_embed` raise,
   * at the pair that caused it; `WatchlistUnreadable` is the raise of the
   * watchlist read, before anything is sent.
   */
  datatype ListingReply =
    | EmptyWatchlist(running: bool)
    | Listing(shown: seq<(string, string)>, watchlist: seq<string>, running: bool)
    | ListingCrashed(symbol: string, id: string)
    | WatchlistUnreadable

  /** The (symbol, id) pairs `send_listings` walks: every indexed id of every watched symbol. */
  function Visits(symbols: set<string>, index: map<string, set<string>>): set<(string, string)> {
    set s, i | s in symbols && s in index && i in index[s] :: (s, i)
  }

  /** The pairs of the walk whose id has a coin: what a guarded `send_listings` shows. */
  function Shown(symbols: set<string>, index: map<string, set<string>>, coins: map<string, Coin>): set<(string, string)> {
    set p | p in Visits(symbols, index) && p.1 in coins
  }

  lemma ShownStep(done: seq<string>, s: string, index: map<string, set<string>>, coins: map<string, Coin>)
    ensures Shown(Elems(done + [s]), index, coins) ==
            Shown(Elems(done), index, coins) + (if s in index then set i | i in index[s] && i in coins :: (s, i) else {})
  {
    VisitsStep(done, s, index);
  }

  /** The order `send_listings` walks pairs in: by symbol, then by id. */
  predicate PairLess(p: (string, string), q: (string, string)) {
    Less(p.0, q.0) || (p.0 == q.0 && Less(p.1, q.1))
  }

  predicate PairsSorted(ps: seq<(string, string)>) {
    forall a, b :: 0 <= a < b < |ps| ==> PairLess(ps[a], ps[b])
  }

  lemma VisitsStep(done: seq<string>, s: string, index: map<string, set<string>>)
    ensures Visits(Elems(done + [s]), index) ==
            Visits(Elems(done), index) + (if s in index then set i | i in index[s] :: (s, i) else {})
  {
    assert Elems(done + [s]) == Elems(done) + {s};
  }

  /** Appending the pairs of the next symbol keeps the shown pairs in order. */
  lemma AppendBlock(order: seq<string>, k: nat, shown: seq<(string, string)>, pairs: seq<(string, string)>)
    requires StrictlySorted(order) && k < |order|
    requires PairsSorted(shown) && PairsSorted(pairs)
    requires forall a :: 0 <= a < |shown| ==> shown[a].0 in order[..k]
    requires forall b :: 0 <= b < |pairs| ==> pairs[b].0 == order[k]
    ensures PairsSorted(shown + pairs)
    ensures Elems(shown + pairs) == Elems(shown) + Elems(pairs)
    ensures forall a :: 0 <= a < |shown + pairs| ==> (shown + pairs)[a].0 in order[..k + 1]
  {
    var all := shown + pairs;
    forall a, b | 0 <= a < b < |all| ensures PairLess(all[a], all[b]) {
      if b >= |shown| && a < |shown| {
        var m :| 0 <= m < k && order[..k][m] == shown[a].0;
        assert order[m] == shown[a].0;
        assert all[b] == pairs[b - |shown|];
      }
    }
    forall a | 0 <= a < |all| ensures all[a].0 in order[..k + 1] {
      if a < |shown| {
        var m :| 0 <= m < k && order[..k][m] == shown[a].0;
        assert order[..k + 1][m] == shown[a].0;
      } else {
        assert all[a] == pairs[a - |shown|];
        assert order[..k + 1][k] == order[k];
      }
    }
  }

  /** The pairs `EmbedIds` returns are a block of the walk in order. */
  lemma AppendPrefix(order: seq<string>, k: nat, ids: seq<string>, shown: seq<(string, string)>, pairs: seq<(string, string)>)
    requires StrictlySorted(order) && k < |order|
    requires StrictlySorted(ids) && |pairs| <= |ids|
    requires PairsSorted(shown)
    requires forall a :: 0 <= a < |shown| ==> shown[a].0 in order[..k]
    requires forall b :: 0 <= b < |pairs| ==> pairs[b] == (order[k], ids[b])
    ensures PairsSorted(shown + pairs)
    ensures Elems(shown + pairs) == Elems(shown) + (set i | i in ids[..|pairs|] :: (order[k], i))
    ensures forall a :: 0 <= a < |shown + pairs| ==> (shown + pairs)[a].0 in order[..k + 1]
  {
    assert PairsSorted(pairs);
    AppendBlock(order, k, shown, pairs);
    forall p ensures p in Elems(pairs) <==> p in (set i | i in ids[..|pairs|] :: (order[k], i)) {
      if p in (set i | i in ids[..|pairs|] :: (order[k], i)) {
        var n :| 0 <= n < |pairs| && ids[..|pairs|][n] == p.1;
        assert pairs[n] == p;
      }
    }
  }

  /**
   * A walked pair that comes before `(order[k], ids[j])` in the walk's order
   * was walked already: under an earlier symbol, or under `order[k]` before
   * `ids[j]`.
   */
  lemma EarlierPair(index: map<string, set<string>>, order: seq<string>, k: nat, ids: seq<string>, j: nat,
                    q: (string, string))
    requires StrictlySorted(order) && k < |order|
    requires order[k] in index && StrictlySorted(ids) && Elems(ids) == index[order[k]] && j < |ids|
    requires q in Visits(Elems(order), index) && PairLess(q, (order[k], ids[j]))
    ensures q in Visits(Elems(order[..k]), index) || (q.0 == order[k] && q.1 in ids[..j])
  {
    assert q.0 in Elems(order);
    if Less(q.0, order[k]) {
      SortedBefore(order, k, q.0);
      assert q.0 in Elems(order[..k]);
    } else {
      assert q.0 == order[k];
      assert q.1 in Elems(ids);
      SortedBefore(ids, j, q.1);
    }
  }

  /**
   * Where the walk first meets an id whose embed cannot be built, every pair
   * before it in the walk's order has already been shown, so its embed can be
   * built.
   */
  lemma FirstDangling(symbols: set<string>, index: map<string, set<string>>, coins: map<string, Coin>,
                      order: seq<string>, k: nat, ids: seq<string>, j: nat, shown: seq<(string, string)>)
    requires StrictlySorted(order) && Elems(order) == symbols && k < |order|
    requires order[k] in index && StrictlySorted(ids) && Elems(ids) == index[order[k]] && j < |ids|
    requires Elems(shown) == Visits(Elems(order[..k]), index) + (set i | i in ids[..j] :: (order[k], i))
    requires forall a :: 0 <= a < |shown| ==> Embeddable(coins, shown[a].1)
    ensures (order[k], ids[j]) in Visits(symbols, index)
    ensures forall q :: q in Visits(symbols, index) && PairLess(q, (order[k], ids[j])) ==> Embeddable(coins, q.1)
  {
    assert order[k] in Elems(order) && ids[j] in Elems(ids);
    forall q | q in Visits(symbols, index) && PairLess(q, (order[k], ids[j])) ensures Embeddable(coins, q.1) {
      EarlierPair(index, order, k, ids, j, q);
      assert q in Elems(shown);
      var a :| 0 <= a < |shown| && shown[a] == q;
    }
  }

  /**
   * The same for the guarded walk: where it first meets a coin whose embed
   * raises, every earlier walked pair that has a coin has been shown.
   */
  lemma FirstRaising(symbols: set<string>, index: map<string, set<string>>, coins: map<string, Coin>,
                     order: seq<string>, k: nat, ids: seq<string>, j: nat, shown: seq<(string, string)>)
    requires StrictlySorted(order) && Elems(order) == symbols && k < |order|
    requires order[k] in index && StrictlySorted(ids) && Elems(ids) == index[order[k]] && j < |ids|
    requires ids[j] in coins
    requires Elems(shown) == Shown(Elems(order[..k]), index, coins) + (set i | i in ids[..j] && i in coins :: (order[k], i))
    requires forall a :: 0 <= a < |shown| ==> Embeddable(coins, shown[a].1)
    ensures (order[k], ids[j]) in Shown(symbols, index, coins)
    ensures forall q :: q in Shown(symbols, index, coins) && PairLess(q, (order[k], ids[j])) ==> Embeddable(coins, q.1)
  {
    assert order[k] in Elems(order) && ids[j] in Elems(ids);
    assert (order[k], ids[j]) in Visits(symbols, index);
    forall q | q in Shown(symbols, index, coins) && PairLess(q, (order[k], ids[j])) ensures Embeddable(coins, q.1) {
      EarlierPair(index, order, k, ids, j, q);
      assert q in Elems(shown);
      var a :| 0 <= a < |shown| && shown[a] == q;
    }
  }

  /** In a strictly sorted list, an element below the one at `k` stands before `k`. */
  lemma SortedBefore(xs: seq<string>, k: nat, y: string)
    requires StrictlySorted(xs) && k < |xs|
    requires y in xs && Less(y, xs[k])
    ensures y in xs[..k]
  {
    var m :| 0 <= m < |xs| && xs[m] == y;
    if m >= k {
      LessIrreflexive(y);
      if m > k {
        LessAsymmetric(xs[k], y);
      }
      assert false;
    }
    assert xs[..k][m] == y;
  }

  /**
   * When the index is derived from the dictionary, `check` answers "not listed"
   * exactly for symbols no coin has, and otherwise looks up every coin with
   * that symbol.
   */
  lemma CheckOnConsistentIndex(m: map<string, Coin>, s: string)
    ensures s in BySymbol(m) <==> exists i :: i in m && SymbolOf(m[i]) == s
    ensures s in BySymbol(m) ==> (set i | i in BySymbol(m)[s] && i in m) == IdsWith(m, s)
  {
    BySymbolExact(m);
  }

  /**
   * When the index is derived from the dictionary, every pair `send_listings`
   * walks has a coin, so the guard changes nothing.
   */
  lemma ConsistentIndexHasNoDanglingIds(symbols: set<string>, m: map<string, Coin>)
    ensures forall p :: p in Visits(symbols, BySymbol(m)) ==> p.1 in m
    ensures Shown(symbols, BySymbol(m), m) == Visits(symbols, BySymbol(m))
  {
    BySymbolExact(m);
  }

  // ---------------------------------------------------------------------------
  // The bot's state
  // ---------------------------------------------------------------------------

  class Bot {
    /** `id_to_coin_dict`: the coins of the last completed cycle. */
    var idToCoin: map<string, Coin>
    /** `symbol_to_ids`: symbol to coin ids, rebuilt at the start of each cycle's processing. */
    var symbolToIds: map<string, set<string>>
    /** `user_notifications`: the users who ran `start`. */
    var userNotifications: set<string>
    /** The watchlist files under `users/`. */
    var store: Store

    /** The module-level state at start-up, over whatever `users/` already holds. */
    constructor (store: Store)
      ensures idToCoin == map[] && symbolToIds == map[] && userNotifications == {}
      ensures this.store == store
    {
      idToCoin := map[];
      symbolToIds := map[];
      userNotifications := {};
      this.store := store;
    }

    /** The index describes exactly the coins of `id_to_coin_dict`. */
    ghost predicate IndexConsistent()
      reads this
    {
      symbolToIds == BySymbol(idToCoin)
    }

    /** `symbol_to_ids.clear()` and the loop that refills it from the new dictionary. */
    method RebuildSymbolIndex(snapshot: map<string, Coin>)
      modifies this`symbolToIds
      ensures symbolToIds == BySymbol(snapshot)
    {
      symbolToIds := map[];
      var pending := snapshot.Keys;
      while pending != {}
        invariant pending <= snapshot.Keys
        invariant symbolToIds == BySymbol(snapshot - pending)
        decreases pending
      {
        var id :| id in pending;
        var symbol := SymbolOf(snapshot[id]);
        BySymbolInsert(snapshot - pending, id, snapshot[id]);
        RemainderStep(snapshot, pending, id);
        if symbol !in symbolToIds {
          assert {} + {id} == {id};
          symbolToIds := symbolToIds[symbol := {id}];
        } else {
          symbolToIds := symbolToIds[symbol := symbolToIds[symbol] + {id}];
        }
        pending := pending - {id};
        assert symbolToIds == BySymbol(snapshot - pending);
      }
      assert snapshot - pending == snapshot;
    }

    /**
     * The loop over `user_notifications`: collects subscribers whose directory
     * is gone, reads each other subscriber's watchlist and sends one
     * notification per watched new coin. A read or a send that raises ends the
     * loop, and `outcome` names it.
     */
    method FanOut(snapshot: map<string, Coin>, delta: set<string>, undeliverable: set<(string, string)>)
      returns (outcome: CycleOutcome, notified: set<(string, string)>, stale: set<string>)
      requires delta <= snapshot.Keys
      ensures !outcome.FetchFailed?
      ensures notified <= Notifications(userNotifications, store, snapshot, delta)
      ensures forall p :: p in notified ==> !SendRaises(snapshot, undeliverable, p)
      ensures outcome.Completed? <==> CycleCanComplete(userNotifications, store, snapshot, delta, undeliverable)
      ensures outcome.Completed? ==>
                notified == Notifications(userNotifications, store, snapshot, delta) && stale == userNotifications - store.Keys
      ensures outcome.ReadFailed? ==> outcome.user in userNotifications && !Readable(store, outcome.user)
      ensures outcome.SendFailed? ==>
                && (outcome.user, outcome.id) in Notifications(userNotifications, store, snapshot, delta)
                && SendRaises(snapshot, undeliverable, (outcome.user, outcome.id))
    {
      notified, stale := {}, {};
      var pending := userNotifications;
      while pending != {}
        invariant pending <= userNotifications
        invariant stale == (userNotifications - pending) - store.Keys
        invariant forall v :: v in userNotifications - pending ==> Readable(store, v)
        invariant notified == Notifications(userNotifications - pending, store, snapshot, delta)
        invariant forall p :: p in notified ==> !SendRaises(snapshot, undeliverable, p)
        decreases pending
      {
        var u :| u in pending;
        ghost var done := userNotifications - pending;
        NotificationsStep(done, u, store, snapshot, delta);
        NotificationsMonotone(done + {u}, userNotifications, store, snapshot, delta);
        if u !in store {
          stale := stale + {u};
        } else {
          var read := GetSymbols(store, u);
          if read.None? {
            return ReadFailed(u), notified, stale;
          }
          var symbols := read.value;
          var todo := delta;
          while todo != {}
            invariant todo <= delta
            invariant notified == Notifications(done, store, snapshot, delta) + Row(u, store, snapshot, delta - todo)
            invariant forall p :: p in notified ==> !SendRaises(snapshot, undeliverable, p)
            decreases todo
          {
            var i :| i in todo;
            var coin := snapshot[i];
            if coin.symbol.Some? && coin.symbol.value in symbols {
              if (u, i) in undeliverable || EmbedRaises(coin) {
                assert (u, i) in Row(u, store, snapshot, delta);
                assert !CycleCanComplete(userNotifications, store, snapshot, delta, undeliverable) by {
                  assert (u, i) in Notifications(userNotifications, store, snapshot, delta);
                  assert SendRaises(snapshot, undeliverable, (u, i));
                }
                return SendFailed(u, i), notified, stale;
              }
              notified := notified + {(u, i)};
            }
            todo := todo - {i};
          }
        }
        pending := pending - {u};
      }
      outcome := Completed;
    }

    /** `for each_user in remove_user: user_notifications.remove(each_user)`. */
    method Prune(stale: set<string>)
      modifies this`userNotifications
      ensures userNotifications == old(userNotifications) - stale
    {
      var rest := stale;
      while rest != {}
        invariant rest <= stale
        invariant userNotifications == old(userNotifications) - (stale - rest)
        decreases rest
      {
        var u :| u in rest;
        userNotifications := userNotifications - {u};
        rest := rest - {u};
      }
    }

    /**
     * One pass through the body of `poll_loop`. `fetched` is the price list, or
     * `None` when fetching it raised; `undeliverable` are the (user, id) sends
     * Discord refuses. A raise ends the cycle where it happens: the index has
     * then already been rebuilt, but `id_to_coin_dict` and the subscribers are
     * left as they were.
     */
    method PollCycle(fetched: Option<seq<Coin>>, undeliverable: set<(string, string)>)
      returns (outcome: CycleOutcome, delta: set<string>, notified: set<(string, string)>)
      modifies this
      ensures store == old(store)
      ensures fetched.None? ==>
                && outcome == FetchFailed && delta == {} && notified == {}
                && idToCoin == old(idToCoin) && symbolToIds == old(symbolToIds)
                && userNotifications == old(userNotifications)
      ensures fetched.Some? ==>
                var snapshot := Snapshot(fetched.value);
                && delta == snapshot.Keys - old(idToCoin).Keys
                && symbolToIds == BySymbol(snapshot)
                && outcome != FetchFailed
                && notified <= Notifications(old(userNotifications), store, snapshot, delta)
                && (forall p :: p in notified ==> !SendRaises(snapshot, undeliverable, p))
                && (outcome == Completed <==> CycleCanComplete(old(userNotifications), store, snapshot, delta, undeliverable))
                && (outcome == Completed ==>
                      && notified == Notifications(old(userNotifications), store, snapshot, delta)
                      && idToCoin == snapshot
                      && userNotifications == old(userNotifications) * store.Keys)
                && (outcome.ReadFailed? ==>
                      && outcome.user in old(userNotifications) && !Readable(store, outcome.user)
                      && idToCoin == old(idToCoin)
                      && userNotifications == old(userNotifications))
                && (outcome.SendFailed? ==>
                      && (outcome.user, outcome.id) in Notifications(old(userNotifications), store, snapshot, delta)
                      && SendRaises(snapshot, undeliverable, (outcome.user, outcome.id))
                      && idToCoin == old(idToCoin)
                      && userNotifications == old(userNotifications))
      ensures WrittenByBot(store) ==> !outcome.ReadFailed?
      ensures outcome == Completed ==> IndexConsistent()
    {
      if fetched.None? {
        return FetchFailed, {}, {};
      }
      var list := fetched.value;
      var coins := new Coin[|list|](k requires 0 <= k < |list| => list[k]);
      assert coins[..] == list;
      NormalizeSymbols(coins);
      NormalizedIsLowered(list);
      var converted := CoinListToDict(coins);
      assert converted.Success?;
      var snapshot := converted.value;
      assert snapshot == Snapshot(list);

      RebuildSymbolIndex(snapshot);
      delta := snapshot.Keys - idToCoin.Keys;

      var stale;
      outcome, notified, stale := FanOut(snapshot, delta, undeliverable);
      if outcome != Completed {
        return;
      }
      Prune(stale);
      idToCoin := snapshot;
    }

    // -------------------------------------------------------------------------
    // Commands
    // -------------------------------------------------------------------------

    /** `?add <symbol>`. */
    method Add(user: string, symbol: string) returns (reply: Reply)
      modifies this`store
      ensures |symbol| < 1 ==> reply == ArgumentMissing && store == old(store)
      ensures |symbol| >= 1 && !Readable(old(store), user) ==> reply == Unreadable && store == old(store)
      ensures |symbol| >= 1 && Readable(old(store), user) && Lower(symbol) in Symbols(old(store), user) ==>
                reply == AlreadyInList(Lower(symbol)) && store == old(store)
      ensures |symbol| >= 1 && Readable(old(store), user) && Lower(symbol) !in Symbols(old(store), user) ==>
                && reply == Added(Lower(symbol))
                && user in store && store[user].Listed?
                && store == old(store)[user := store[user]]
                && StrictlySorted(store[user].symbols)
                && Symbols(store, user) == Symbols(old(store), user) + {Lower(symbol)}
      ensures WrittenByBot(old(store)) ==> WrittenByBot(store)
    {
      if |symbol| < 1 {
        return ArgumentMissing;
      }
      var lower := Lower(symbol);
      var read := GetSymbols(store, user);
      if read.None? {
        return Unreadable;
      }
      var symbols := read.value;
      if lower in symbols {
        return AlreadyInList(lower);
      }
      symbols := symbols + {lower};
      var list := SortedList(symbols);
      ElemsEmpty(list);
      store := store[user := Listed(list)];
      reply := Added(lower);
    }

    /** `?remove <symbol>`. */
    method Remove(user: string, symbol: string) returns (reply: Reply)
      modifies this`store
      ensures |symbol| < 1 ==> reply == ArgumentMissing && store == old(store)
      ensures |symbol| >= 1 && !Readable(old(store), user) ==> reply == Unreadable && store == old(store)
      ensures |symbol| >= 1 && Readable(old(store), user) && Lower(symbol) !in Symbols(old(store), user) ==>
                reply == NotInList(Lower(symbol)) && store == old(store)
      ensures |symbol| >= 1 && Readable(old(store), user) && Symbols(old(store), user) == {Lower(symbol)} ==>
                reply == Removed(Lower(symbol), true) && store == old(store) - {user}
      ensures |symbol| >= 1 && Readable(old(store), user) && Lower(symbol) in Symbols(old(store), user) &&
              Symbols(old(store), user) != {Lower(symbol)} ==>
                && reply == Removed(Lower(symbol), false)
                && user in store && store[user].Listed?
                && store == old(store)[user := store[user]]
                && StrictlySorted(store[user].symbols)
                && Symbols(store, user) == Symbols(old(store), user) - {Lower(symbol)}
      ensures WrittenByBot(old(store)) ==> WrittenByBot(store)
    {
      if |symbol| < 1 {
        return ArgumentMissing;
      }
      var lower := Lower(symbol);
      var read := GetSymbols(store, user);
      if read.None? {
        return Unreadable;
      }
      var symbols := read.value;
      if lower !in symbols {
        return NotInList(lower);
      }
      if |symbols| < 2 {
        assert symbols == {lower} by {
          var others := symbols - {lower};
          assert symbols == others + {lower};
          assert |symbols| == |others| + 1;
        }
        store := store - {user};
        return Removed(lower, true);
      }
      assert symbols != {lower};
      var others := symbols - {lower};
      var list := SortedList(others);
      assert others != {} by {
        var other :| other in symbols && other != lower;
        assert other in others;
      }
      ElemsEmpty(list);
      store := store[user := Listed(list)];
      reply := Removed(lower, false);
    }

    /** `?start`: subscribe to notifications (the listing it then sends is `SendListings`). */
    method Start(user: string)
      modifies this`userNotifications
      ensures userNotifications == old(userNotifications) + {user}
    {
      userNotifications := userNotifications + {user};
    }

    /** `?stop`: unsubscribe; `wasRunning` tells the "stopped" reply from the "was not running" one. */
    method Stop(user: string) returns (wasRunning: bool)
      modifies this`userNotifications
      ensures wasRunning <==> user in old(userNotifications)
      ensures userNotifications == old(userNotifications) - {user}
    {
      wasRunning := user in userNotifications;
      if wasRunning {
        userNotifications := userNotifications - {user};
      }
    }

    /**
     * `?check <symbol>`: one embed per indexed id of the symbol that
     * `id_to_coin_dict` knows, in an unspecified order; an embed that raises
     * ends the command.
     */
    method Check(symbol: string) returns (reply: CheckReply)
      ensures |symbol| < 1 ==> reply == CheckUsage
      ensures |symbol| >= 1 && Lower(symbol) !in symbolToIds ==> reply == NotListed(Lower(symbol))
      ensures |symbol| >= 1 && Lower(symbol) in symbolToIds ==>
                var ids := symbolToIds[Lower(symbol)];
                && (reply.Found? || reply.CheckCrashed?)
                && (reply.Found? <==> forall i :: i in ids && i in idToCoin ==> !EmbedRaises(idToCoin[i]))
                && (reply.Found? ==> reply.ids == set i | i in ids && i in idToCoin)
                && (reply.CheckCrashed? ==>
                      && reply.id in ids && reply.id in idToCoin && EmbedRaises(idToCoin[reply.id])
                      && reply.sent <= ids
                      && forall i :: i in reply.sent ==> Embeddable(idToCoin, i))
    {
      if |symbol| < 1 {
        return CheckUsage;
      }
      var lower := Lower(symbol);
      if lower !in symbolToIds {
        return NotListed(lower);
      }
      var ids := symbolToIds[lower];
      var sent: set<string> := {};
      var rest := ids;
      while rest != {}
        invariant rest <= ids
        invariant sent == set i | i in ids - rest && i in idToCoin
        invariant forall i :: i in sent ==> Embeddable(idToCoin, i)
        decreases rest
      {
        var i :| i in rest;
        if i in idToCoin {
          if EmbedRaises(idToCoin[i]) {
            return CheckCrashed(sent, i);
          }
          sent := sent + {i};
        }
        rest := rest - {i};
      }
      assert ids - rest == ids;
      assert forall i :: i in ids && i in idToCoin ==> Embeddable(idToCoin, i);
      reply := Found(sent);
    }

    /**
     * The inner loop of `send_listings` for one symbol, as written: the ids in
     * order up to the first one whose embed raises, either because
     * `id_to_coin_dict` lacks it and `get_coin_embed(None)` raises, or because
     * its coin's embed cannot be built.
     */
    method EmbedIds(symbol: string, ids: seq<string>) returns (pairs: seq<(string, string)>, raised: Option<string>)
      ensures |pairs| <= |ids|
      ensures forall a :: 0 <= a < |pairs| ==> pairs[a] == (symbol, ids[a]) && Embeddable(idToCoin, ids[a])
      ensures raised.None? <==> |pairs| == |ids|
      ensures raised.Some? ==> raised.value == ids[|pairs|] && !Embeddable(idToCoin, raised.value)
    {
      pairs := [];
      for j := 0 to |ids|
        invariant |pairs| == j
        invariant forall a :: 0 <= a < j ==> pairs[a] == (symbol, ids[a]) && Embeddable(idToCoin, ids[a])
      {
        if !Embeddable(idToCoin, ids[j]) {
          return pairs, Some(ids[j]);
        }
        pairs := pairs + [(symbol, ids[j])];
      }
      raised := None;
    }

    /**
     * `send_listings`, as written: the watched symbols in order, and for each
     * the indexed ids in order, each looked up in `id_to_coin_dict` and passed
     * to `get_coin_embed` even when the lookup gives `None`, which raises.
     */
    method SendListings(user: string) returns (reply: ListingReply)
      ensures !Readable(store, user) ==> reply == WatchlistUnreadable
      ensures Readable(store, user) && Symbols(store, user) == {} ==> reply == EmptyWatchlist(user in userNotifications)
      ensures Readable(store, user) && Symbols(store, user) != {} ==>
                var walk := Visits(Symbols(store, user), symbolToIds);
                && (reply.Listing? || reply.ListingCrashed?)
                && (reply.Listing? <==> forall p :: p in walk ==> Embeddable(idToCoin, p.1))
                && (reply.Listing? ==>
                      && PairsSorted(reply.shown)
                      && Elems(reply.shown) == walk
                      && StrictlySorted(reply.watchlist)
                      && Elems(reply.watchlist) == Symbols(store, user)
                      && reply.running == (user in userNotifications))
                && (reply.ListingCrashed? ==>
                      && (reply.symbol, reply.id) in walk
                      && !Embeddable(idToCoin, reply.id)
                      && forall q :: q in walk && PairLess(q, (reply.symbol, reply.id)) ==> Embeddable(idToCoin, q.1))
    {
      var read := GetSymbols(store, user);
      if read.None? {
        return WatchlistUnreadable;
      }
      var symbols := read.value;
      var running := user in userNotifications;
      if |symbols| < 1 {
        return EmptyWatchlist(running);
      }
      var order := SortedList(symbols);
      var shown: seq<(string, string)> := [];
      for k := 0 to |order|
        invariant PairsSorted(shown)
        invariant Elems(shown) == Visits(Elems(order[..k]), symbolToIds)
        invariant forall a :: 0 <= a < |shown| ==> shown[a].0 in order[..k] && Embeddable(idToCoin, shown[a].1)
      {
        var symbol := order[k];
        VisitsStep(order[..k], symbol, symbolToIds);
        assert order[..k + 1] == order[..k] + [symbol];
        if symbol in symbolToIds {
          var ids := SortedList(symbolToIds[symbol]);
          var pairs, raised := EmbedIds(symbol, ids);
          AppendPrefix(order, k, ids, shown, pairs);
          if raised.Some? {
            FirstDangling(symbols, symbolToIds, idToCoin, order, k, ids, |pairs|, shown + pairs);
            return ListingCrashed(symbol, raised.value);
          }
          assert ids[..|pairs|] == ids;
          assert Elems(ids) == symbolToIds[symbol];
          shown := shown + pairs;
        }
      }
      assert order[..|order|] == order;
      reply := Listing(shown, order, running);
    }

    /**
     * The inner loop of `send_listings` for one symbol with the `coin is not
     * None` guard: the ids in order that `id_to_coin_dict` has, up to the
     * first coin whose embed raises; `stop` is its position, or `|ids|`.
     */
    method EmbedIdsGuarded(symbol: string, ids: seq<string>) returns (pairs: seq<(string, string)>, stop: nat)
      requires StrictlySorted(ids)
      ensures stop <= |ids|
      ensures PairsSorted(pairs)
      ensures forall a :: 0 <= a < |pairs| ==> pairs[a].0 == symbol && Embeddable(idToCoin, pairs[a].1)
      ensures Elems(pairs) == set i | i in ids[..stop] && i in idToCoin :: (symbol, i)
      ensures stop < |ids| ==> ids[stop] in idToCoin && EmbedRaises(idToCoin[ids[stop]])
    {
      pairs := [];
      for j := 0 to |ids|
        invariant PairsSorted(pairs)
        invariant forall a :: 0 <= a < |pairs| ==> pairs[a].0 == symbol && pairs[a].1 in ids[..j]
        invariant forall a :: 0 <= a < |pairs| ==> Embeddable(idToCoin, pairs[a].1)
        invariant Elems(pairs) == set i | i in ids[..j] && i in idToCoin :: (symbol, i)
      {
        if ids[j] in idToCoin {
          if EmbedRaises(idToCoin[ids[j]]) {
            return pairs, j;
          }
          forall a | 0 <= a < |pairs| ensures PairLess(pairs[a], (symbol, ids[j])) {
            var n :| 0 <= n < j && ids[..j][n] == pairs[a].1;
            assert ids[n] == pairs[a].1;
          }
          assert Elems(pairs + [(symbol, ids[j])]) == Elems(pairs) + {(symbol, ids[j])};
          pairs := pairs + [(symbol, ids[j])];
        }
        assert ids[..j + 1] == ids[..j] + [ids[j]];
      }
      stop := |ids|;
      assert ids[..|ids|] == ids;
    }

    /**
     * `send_listings` with the `coin is not None` guard that `check` has: ids
     * the index holds but `id_to_coin_dict` does not are skipped.
     */
    method SendListingsGuarded(user: string) returns (reply: ListingReply)
      ensures !Readable(store, user) ==> reply == WatchlistUnreadable
      ensures Readable(store, user) && Symbols(store, user) == {} ==> reply == EmptyWatchlist(user in userNotifications)
      ensures Readable(store, user) && Symbols(store, user) != {} ==>
                var walk := Shown(Symbols(store, user), symbolToIds, idToCoin);
                && (reply.Listing? || reply.ListingCrashed?)
                && (reply.Listing? <==> forall p :: p in walk ==> Embeddable(idToCoin, p.1))
                && (reply.Listing? ==>
                      && PairsSorted(reply.shown)
                      && Elems(reply.shown) == walk
                      && StrictlySorted(reply.watchlist)
                      && Elems(reply.watchlist) == Symbols(store, user)
                      && reply.running == (user in userNotifications))
                && (reply.ListingCrashed? ==>
                      && (reply.symbol, reply.id) in walk
                      && reply.id in idToCoin && EmbedRaises(idToCoin[reply.id])
                      && forall q :: q in walk && PairLess(q, (reply.symbol, reply.id)) ==> Embeddable(idToCoin, q.1))
    {
      var read := GetSymbols(store, user);
      if read.None? {
        return WatchlistUnreadable;
      }
      var symbols := read.value;
      var running := user in userNotifications;
      if |symbols| < 1 {
        return EmptyWatchlist(running);
      }
      var order := SortedList(symbols);
      var shown: seq<(string, string)> := [];
      for k := 0 to |order|
        invariant PairsSorted(shown)
        invariant Elems(shown) == Shown(Elems(order[..k]), symbolToIds, idToCoin)
        invariant forall a :: 0 <= a < |shown| ==> shown[a].0 in order[..k] && Embeddable(idToCoin, shown[a].1)
      {
        var symbol := order[k];
        ShownStep(order[..k], symbol, symbolToIds, idToCoin);
        assert order[..k + 1] == order[..k] + [symbol];
        if symbol in symbolToIds {
          var ids := SortedList(symbolToIds[symbol]);
          var pairs, stop := EmbedIdsGuarded(symbol, ids);
          AppendBlock(order, k, shown, pairs);
          if stop < |ids| {
            FirstRaising(symbols, symbolToIds, idToCoin, order, k, ids, stop, shown + pairs);
            return ListingCrashed(symbol, ids[stop]);
          }
          assert ids[..stop] == ids;
          assert (set i | i in ids && i in idToCoin :: (symbol, i)) ==
                 (set i | i in symbolToIds[symbol] && i in idToCoin :: (symbol, i));
          shown := shown + pairs;
        }
      }
      assert order[..|order|] == order;
      reply := Listing(shown, order, running);
    }
  }

  /**
   * A reachable state in which `send_listings` as written raises: a user
   * watches "eth" and is subscribed, a new coin with that symbol is listed,
   * and Discord refuses the notification to that user. The cycle has then
   * rebuilt the index but not `id_to_coin_dict`, so the listing looks up a
   * missing id.
   */
  method ListingCrashAfterFailedSend() returns (outcome: CycleOutcome, reply: ListingReply, guarded: ListingReply)
    ensures outcome == SendFailed("1001", "ethereum")
    ensures reply == ListingCrashed("eth", "ethereum")
    ensures guarded.Listing? && guarded.shown == []
  {
    var bot := new Bot(map[]);
    var added := bot.Add("1001", "ETH");
    bot.Start("1001");
    EthScenario(bot.store);
    outcome := FailedEthCycle(bot);
    EthSnapshot(bot.store);
    reply := bot.SendListings("1001");
    guarded := bot.SendListingsGuarded("1001");
    ElemsEmpty(guarded.shown);
  }

  /** The cycle of the scenario above: the one notification it owes is refused. */
  method FailedEthCycle(bot: Bot) returns (outcome: CycleOutcome)
    requires bot.userNotifications == {"1001"} && bot.idToCoin == map[]
    requires "1001" in bot.store && bot.store["1001"].Listed? && Symbols(bot.store, "1001") == {"eth"}
    modifies bot
    ensures outcome == SendFailed("1001", "ethereum")
    ensures bot.idToCoin == map[] && bot.symbolToIds == map["eth" := {"ethereum"}]
    ensures bot.store == old(bot.store) && Readable(bot.store, "1001") && Symbols(bot.store, "1001") == {"eth"}
  {
    EthSnapshot(bot.store);
    ghost var store := bot.store;
    ghost var snapshot := Snapshot([EthCoin()]);
    var delta, notified;
    outcome, delta, notified := bot.PollCycle(Some([EthCoin()]), {("1001", "ethereum")});
    assert delta == {"ethereum"};
    assert ("1001", "ethereum") in Notifications({"1001"}, store, snapshot, delta);
    assert outcome.SendFailed?;
  }

  /** The quote fields of a well-formed price record. */
  function EthQuote(): Quote {
    map["price_usd" := "2950.12", "price_eur" := "2510.40", "percent_change_1h" := "0.5", "percent_change_24h" := "-1.2"]
  }

  /** A freshly listed coin whose symbol the price API spells in capitals. */
  function EthCoin(): Coin {
    Coin(Some("ethereum"), Some("ETH"), EthQuote())
  }

  /** What `add` leaves in the store in the scenario above. */
  lemma EthScenario(store: Store)
    requires Symbols(store, "1001") == Symbols(map[], "1001") + {Lower("ETH")}
    ensures Symbols(store, "1001") == {"eth"}
    ensures "1001" in store
  {
    assert Lower("ETH") == "eth";
  }

  /** The coin index and the notifications of the scenario's cycle. */
  lemma EthSnapshot(store: Store)
    requires "1001" in store && Symbols(store, "1001") == {"eth"}
    ensures Snapshot([EthCoin()]) == map["ethereum" := Coin(Some("ethereum"), Some("eth"), EthQuote())]
    ensures !EmbedRaises(Coin(Some("ethereum"), Some("eth"), EthQuote()))
    ensures BySymbol(Snapshot([EthCoin()])) == map["eth" := {"ethereum"}]
    ensures ("1001", "ethereum") in Notifications({"1001"}, store, Snapshot([EthCoin()]), {"ethereum"})
    ensures Visits({"eth"}, map["eth" := {"ethereum"}]) == {("eth", "ethereum")}
    ensures Shown({"eth"}, map["eth" := {"ethereum"}], map[]) == {}
  {
    assert Lower("ETH") == "eth";
    var normalized := Coin(Some("ethereum"), Some("eth"), EthQuote());
    assert Normalized([EthCoin()]) == [normalized];
    assert [normalized][..0] == [] && Key(normalized) == "ethereum";
    assert Index([normalized]) == Index([])["ethereum" := normalized];
    var snapshot := map["ethereum" := normalized];
    assert SymbolOf(snapshot["ethereum"]) == "eth";
    assert IndexedSymbols(snapshot) == {"eth"} by {
      forall s | s in IndexedSymbols(snapshot) ensures s == "eth" {
        var i :| i in snapshot && SymbolOf(snapshot[i]) == s;
        assert i == "ethereum";
      }
    }
    assert IdsWith(snapshot, "eth") == {"ethereum"};
    assert PriceFields <= EthQuote().Keys;
  }

  /**
   * A subscriber whose watchlist file is corrupt stalls every cycle: the read
   * raises each time, so the new coins are never taken over into
   * `id_to_coin_dict` and keep being owed.
   */
  method CorruptWatchlistStallsCycles() returns (first: CycleOutcome, second: CycleOutcome, known: map<string, Coin>)
    ensures first == ReadFailed("1001") && second == ReadFailed("1001")
    ensures known == map[]
  {
    var bot := new Bot(map["1001" := Corrupt]);
    bot.Start("1001");
    first := CorruptCycle(bot);
    second := CorruptCycle(bot);
    known := bot.idToCoin;
  }

  /** One cycle of the scenario above. */
  method CorruptCycle(bot: Bot) returns (outcome: CycleOutcome)
    requires bot.userNotifications == {"1001"} && bot.store == map["1001" := Corrupt] && bot.idToCoin == map[]
    modifies bot
    ensures outcome == ReadFailed("1001")
    ensures bot.userNotifications == {"1001"} && bot.store == map["1001" := Corrupt] && bot.idToCoin == map[]
  {
    var delta, notified;
    outcome, delta, notified := bot.PollCycle(Some([EthCoin()]), {});
    NoneOwedToCorrupt(bot.store, Snapshot([EthCoin()]), delta);
  }

  /** A user whose file is corrupt watches nothing, so no notification is owed to them. */
  lemma NoneOwedToCorrupt(store: Store, snapshot: map<string, Coin>, delta: set<string>)
    requires store == map["1001" := Corrupt] && delta <= snapshot.Keys
    ensures Notifications({"1001"}, store, snapshot, delta) == {}
  {
  }

  /**
   * Running the same snapshot twice: after a completed first cycle the
   * second finds nothing new and notifies nobody; after a failed one it owes
   * the same new ids again, so notifications sent before the raise are sent
   * again.
   */
  method SameSnapshotTwice(bot: Bot, fetched: seq<Coin>, undeliverable: set<(string, string)>)
    returns (first: CycleOutcome, firstDelta: set<string>, delta: set<string>, notified: set<(string, string)>)
    modifies bot
    ensures first != FetchFailed
    ensures first == Completed ==> delta == {} && notified == {}
    ensures first != Completed ==> delta == firstDelta
  {
    var firstNotified;
    first, firstDelta, firstNotified := bot.PollCycle(Some(fetched), undeliverable);
    var second;
    second, delta, notified := bot.PollCycle(Some(fetched), undeliverable);
  }
}
