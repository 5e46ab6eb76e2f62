/**
 * `coin_list_to_dict` from src/functions.py: turns the fetched list of coin
 * records into a dictionary from coin id to coin, lower-casing every coin's
 * symbol in place on the way.
 */
module Functions {
  import opened Wrappers
  import opened Text

  /** The price and change fields of a record, carried through unread. */
  type Quote = map<string, string>

  /**
   * One coin record as the price API returns it. `None` stands for a key the
   * record does not have.
   */
  datatype Coin = Coin(id: Option<string>, symbol: Option<string>, quote: Quote)

  /** `coin.get("id", "")`: the dictionary key a record is filed under. */
  function Key(c: Coin): string {
    c.id.GetOr("")
  }

  /** `coin["symbol"] = coin.get("symbol").lower()`, for a record that has a symbol. */
  function LowerCoin(c: Coin): (r: Coin)
    requires c.symbol.Some?
    ensures r.symbol.Some? && IsLower(r.symbol.value)
    ensures r.id == c.id && r.quote == c.quote
  {
    LowerIsLower(c.symbol.value);
    c.(symbol := Some(Lower(c.symbol.value)))
  }

  predicate AllHaveSymbol(coins: seq<Coin>) {
    forall k :: 0 <= k < |coins| ==> coins[k].symbol.Some?
  }

  /** The list after the loop has rewritten every record's symbol. */
  function LowerSymbols(coins: seq<Coin>): (r: seq<Coin>)
    requires AllHaveSymbol(coins)
    ensures |r| == |coins|
  {
    seq(|coins|, k requires 0 <= k < |coins| => LowerCoin(coins[k]))
  }

  /** The dictionary the loop builds: each record filed under its key, later ones overwriting earlier ones. */
  function Index(coins: seq<Coin>): map<string, Coin> {
    if coins == [] then map[]
    else
      var last := coins[|coins| - 1];
      Index(coins[..|coins| - 1])[Key(last) := last]
  }

  /** The set of ids in a list. */
  function Ids(coins: seq<Coin>): set<string> {
    set c | c in coins :: Key(c)
  }

  /**
   * `coin_list_to_dict(coin_list)`. Each record's symbol is lower-cased in place;
   * a record without a symbol makes `None.lower()` raise, reported here as the
   * index of that record, after the records before it were already rewritten.
   */
  method CoinListToDict(coins: array<Coin>) returns (r: Result<map<string, Coin>, nat>)
    modifies coins
    ensures r.Success? <==> AllHaveSymbol(old(coins[..]))
    ensures r.Success? ==> coins[..] == LowerSymbols(old(coins[..])) && r.value == Index(coins[..])
    ensures r.Failure? ==>
              && r.error < coins.Length
              && old(coins[r.error]).symbol.None?
              && AllHaveSymbol(old(coins[..r.error]))
              && coins[..r.error] == LowerSymbols(old(coins[..r.error]))
              && coins[r.error..] == old(coins[r.error..])
  {
    var d := map[];
    for k := 0 to coins.Length
      invariant AllHaveSymbol(old(coins[..k]))
      invariant coins[..k] == LowerSymbols(old(coins[..k]))
      invariant coins[k..] == old(coins[k..])
      invariant d == Index(coins[..k])
    {
      if coins[k].symbol.None? {
        assert !AllHaveSymbol(old(coins[..]));
        return Failure(k);
      }
      assert old(coins[..k + 1]) == old(coins[..k]) + [old(coins[k])];
      coins[k] := LowerCoin(coins[k]);
      assert coins[..k + 1][..k] == coins[..k];
      d := d[Key(coins[k]) := coins[k]];
    }
    assert coins[..coins.Length] == coins[..];
    assert old(coins[..coins.Length]) == old(coins[..]);
    r := Success(d);
  }

  /** The dictionary has exactly one key per distinct id in the list; an empty list gives an empty map. */
  lemma {:induction false} IndexKeys(coins: seq<Coin>)
    ensures Index(coins).Keys == Ids(coins)
  {
    if coins != [] {
      var init := coins[..|coins| - 1];
      IndexKeys(init);
      assert coins == init + [coins[|coins| - 1]];
      assert Ids(coins) == Ids(init) + {Key(coins[|coins| - 1])};
    }
  }

  /** For a repeated id, the dictionary holds the last record with that id. */
  lemma {:induction false} IndexLastWins(coins: seq<Coin>, i: nat)
    requires i < |coins|
    requires forall j :: i < j < |coins| ==> Key(coins[j]) != Key(coins[i])
    ensures Key(coins[i]) in Index(coins)
    ensures Index(coins)[Key(coins[i])] == coins[i]
  {
    if i < |coins| - 1 {
      var init := coins[..|coins| - 1];
      assert forall j :: i < j < |init| ==> init[j] == coins[j];
      IndexLastWins(init, i);
    }
  }

  /** Every value of the dictionary is one of the listed records, filed under its own key. */
  lemma {:induction false} IndexValuesFromInput(coins: seq<Coin>)
    ensures forall k :: k in Index(coins) ==> Index(coins)[k] in coins && Key(Index(coins)[k]) == k
  {
    if coins != [] {
      var init := coins[..|coins| - 1];
      IndexValuesFromInput(init);
      assert forall c :: c in init ==> c in coins;
    }
  }

  /** After the call every value of the dictionary has a lower-case symbol. */
  lemma LoweredValuesAreLower(coins: seq<Coin>)
    requires AllHaveSymbol(coins)
    ensures forall k :: k in Index(LowerSymbols(coins)) ==>
              Index(LowerSymbols(coins))[k].symbol.Some? && IsLower(Index(LowerSymbols(coins))[k].symbol.value)
  {
    IndexValuesFromInput(LowerSymbols(coins));
  }

  /** Running the function again on the list it rewrote changes neither the list nor the dictionary. */
  lemma LowerSymbolsIdempotent(coins: seq<Coin>)
    requires AllHaveSymbol(coins)
    ensures AllHaveSymbol(LowerSymbols(coins))
    ensures LowerSymbols(LowerSymbols(coins)) == LowerSymbols(coins)
  {
    var once := LowerSymbols(coins);
    forall k | 0 <= k < |coins| ensures LowerCoin(once[k]) == once[k] {
      LowerIdempotent(coins[k].symbol.value);
    }
  }
}
