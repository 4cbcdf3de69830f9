/** Assets, coins and sums, shared by the wallet modules. */
module Coins {

  /** A 32-byte asset id, as the number the source's ordered maps sort by. */
  type Asset = nat

  const MAX_U64: nat := 0xFFFF_FFFF_FFFF_FFFF
  const MAX_MONEY: nat := 21_000_000 * 100_000_000

  datatype OutPoint = OutPoint(txid: nat, vout: nat)

  datatype Coin = Coin(asset: Asset, amount: nat)

  /** How much of asset `a` the coins hold. */
  function Total(coins: seq<Coin>, a: Asset): nat {
    if coins == [] then 0
    else Total(coins[..|coins| - 1], a) + AmountOf(coins[|coins| - 1], a)
  }

  function AmountOf(coin: Coin, a: Asset): nat {
    if coin.asset == a then coin.amount else 0
  }

  lemma TotalSnoc(coins: seq<Coin>, coin: Coin, a: Asset)
    ensures Total(coins + [coin], a) == Total(coins, a) + AmountOf(coin, a)
  {
    assert (coins + [coin])[..|coins|] == coins;
  }

  lemma {:induction false} TotalAppend(left: seq<Coin>, right: seq<Coin>, a: Asset)
    ensures Total(left + right, a) == Total(left, a) + Total(right, a)
  {
    if right == [] {
      assert left + right == left;
    } else {
      var front, last := right[..|right| - 1], right[|right| - 1];
      TotalAppend(left, front, a);
      TotalSnoc(left + front, last, a);
      assert left + right == (left + front) + [last];
    }
  }

  /** Amount held under an asset in an ordered map of totals. */
  function Get(m: map<Asset, nat>, a: Asset): nat {
    if a in m then m[a] else 0
  }
}
